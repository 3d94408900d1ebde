/** The paycheck API: the next-date rule of each pay frequency and the
    schedule of upcoming dates built from it, updates of a paycheck and its
    template allocations, a budget's funding plan, the funding status of
    each of its categories, and the automatic creation of the month's
    paycheck instances. The tables are sequences in table order; the
    budgets and their categories come from the budgeting tables. */
module Paychecks {
  import opened Common
  import opened Calendar
  import opened Sorting
  import opened PaycheckSchema
  import opened BudgetDb

  datatype Paycheck = Paycheck(id: int, userId: int, name: string, amountCents: int,
                               frequency: Frequency, nextDate: Date, isActive: bool)

  /** One occurrence of a paycheck, counted towards one budget. */
  datatype Instance = Instance(id: int, paycheckId: int, budgetId: int, amountCents: int,
                               date: Date, isReceived: bool)

  /** An allocation of paycheck money to a category: a template of the
      paycheck when it has no instance, otherwise part of that instance. */
  datatype Allocation = Allocation(id: int, paycheckId: int, instanceId: Option<int>,
                                   categoryId: int, amountCents: int, order: int)

  /** A date column always holds a real date. */
  ghost predicate DatesValid(ps: seq<Paycheck>)
  {
    forall p :: p in ps ==> ValidDate(p.nextDate)
  }

  /** Every id handed out so far is below the counter, and so is every
      instance an allocation refers to. */
  ghost predicate IdsBelow(instances: seq<Instance>, allocations: seq<Allocation>, nextId: int)
  {
    (forall i :: i in instances ==> i.id < nextId)
    && (forall a :: a in allocations ==> a.id < nextId && (a.instanceId.Some? ==> a.instanceId.value < nextId))
  }

  // ---------------------------------------------------------------------
  // calculate_next_paycheck_date

  function NextPaycheckDate(d: Date, f: Frequency): (r: Date)
    requires ValidDate(d)
    ensures ValidDate(r)
  {
    match f
    case Weekly => AddDays(d, StepDays(f))
    case Biweekly => AddDays(d, StepDays(f))
    case Semimonthly =>
      if d.day < 15 then Date(d.year, d.month, 15)
      else
        var n := AddMonths(d, 1);
        PrevDay(Date(n.year, n.month, 1))
    case Monthly => AddMonths(d, 1)
    case Custom => d
  }

  /** The length of a weekly or biweekly step, in days. */
  function StepDays(f: Frequency): nat
  {
    if f == Weekly then 7 else 14
  }

  /** Year of the month after month m of year y. */
  function NextMonthYear(y: int, m: int): int { if m < 12 then y else y + 1 }

  /** The month after month m. */
  function NextMonth(m: int): int { if m < 12 then m + 1 else 1 }

  /** One month on is the next calendar month, with the day cut down to
      that month's length. */
  lemma AddOneMonth(d: Date)
    requires ValidDate(d)
    ensures AddMonths(d, 1).year == NextMonthYear(d.year, d.month)
    ensures AddMonths(d, 1).month == NextMonth(d.month)
    ensures AddMonths(d, 1).day == Min(d.day, DaysInMonth(NextMonthYear(d.year, d.month), NextMonth(d.month)))
  {
    var total := d.year * 12 + (d.month - 1) + 1;
    if d.month < 12 {
      assert total == d.year * 12 + d.month;
      assert total / 12 == d.year && total % 12 == d.month;
    } else {
      assert total == (d.year + 1) * 12;
      assert total / 12 == d.year + 1 && total % 12 == 0;
    }
  }

  /** The rule of each frequency: weekly and biweekly move 7 and 14 days on;
      semimonthly moves a date before the 15th to the 15th and any later
      date to the last day of the same month; monthly moves to the same day
      of the next month, cut down to that month's length (December rolls
      over into January); a custom frequency keeps the date. */
  lemma NextPaycheckDateRules(d: Date, f: Frequency)
    requires ValidDate(d)
    ensures f == Weekly ==> Ordinal(NextPaycheckDate(d, f)) == Ordinal(d) + 7
    ensures f == Biweekly ==> Ordinal(NextPaycheckDate(d, f)) == Ordinal(d) + 14
    ensures f == Semimonthly && d.day < 15 ==> NextPaycheckDate(d, f) == Date(d.year, d.month, 15)
    ensures f == Semimonthly && d.day >= 15 ==> NextPaycheckDate(d, f) == LastDayOfMonth(d.year, d.month)
    ensures f == Monthly ==>
      NextPaycheckDate(d, f) == Date(NextMonthYear(d.year, d.month), NextMonth(d.month),
                                     Min(d.day, DaysInMonth(NextMonthYear(d.year, d.month), NextMonth(d.month))))
    ensures f == Custom ==> NextPaycheckDate(d, f) == d
  {
    match f
    case Weekly => OrdinalAddDays(d, 7);
    case Biweekly => OrdinalAddDays(d, 14);
    case Semimonthly => if d.day >= 15 { AddOneMonth(d); }
    case Monthly => AddOneMonth(d);
    case Custom =>
  }

  /** Weekly and biweekly dates always move strictly forward. */
  lemma WeeklyAdvances(d: Date, f: Frequency)
    requires ValidDate(d) && (f == Weekly || f == Biweekly)
    ensures DateLess(d, NextPaycheckDate(d, f))
  {
    NextPaycheckDateRules(d, f);
    OrdinalOrder(d, NextPaycheckDate(d, f));
  }

  /** From the last day of a month the semimonthly rule yields that same
      day again: the schedule does not reach the next month's 15th. */
  lemma SemimonthlyMonthEnd(d: Date)
    requires ValidDate(d) && d.day == DaysInMonth(d.year, d.month)
    ensures NextPaycheckDate(d, Semimonthly) == d
  {
    NextPaycheckDateRules(d, Semimonthly);
  }

  // ---------------------------------------------------------------------
  // generate_upcoming_dates

  /** The date n steps after start. */
  function NthPaycheckDate(start: Date, f: Frequency, n: nat): (r: Date)
    requires ValidDate(start)
    ensures ValidDate(r)
  {
    if n == 0 then start else NextPaycheckDate(NthPaycheckDate(start, f, n - 1), f)
  }

  /** The first `count` dates of the schedule (none for a count below 1, as
      `range` gives). */
  function UpcomingDates(start: Date, f: Frequency, count: int): seq<Date>
    requires ValidDate(start)
  {
    if count <= 0 then [] else DatesBefore(start, f, count)
  }

  /** Exactly `count` dates, starting with start, each the next date of the
      one before it. */
  lemma UpcomingDatesChain(start: Date, f: Frequency, count: int)
    requires ValidDate(start)
    ensures |UpcomingDates(start, f, count)| == Max(count, 0)
    ensures count > 0 ==> UpcomingDates(start, f, count)[0] == start
    ensures forall i :: 0 <= i < |UpcomingDates(start, f, count)| ==> ValidDate(UpcomingDates(start, f, count)[i])
    ensures forall i :: 0 <= i < |UpcomingDates(start, f, count)| - 1 ==>
      UpcomingDates(start, f, count)[i + 1] == NextPaycheckDate(UpcomingDates(start, f, count)[i], f)
  {
    if count > 0 {
      DatesBeforeAt(start, f, count);
    }
  }

  /** The first n dates, one more each step of the loop. */
  function DatesBefore(start: Date, f: Frequency, n: nat): (r: seq<Date>)
    requires ValidDate(start)
  {
    if n == 0 then [] else DatesBefore(start, f, n - 1) + [NthPaycheckDate(start, f, n - 1)]
  }

  /** The i-th of the first n dates is the i-th date of the schedule. */
  lemma {:induction false} DatesBeforeAt(start: Date, f: Frequency, n: nat)
    requires ValidDate(start)
    ensures |DatesBefore(start, f, n)| == n
    ensures forall i :: 0 <= i < n ==> DatesBefore(start, f, n)[i] == NthPaycheckDate(start, f, i)
  {
    if n > 0 {
      DatesBeforeAt(start, f, n - 1);
    }
  }

  /** generate_upcoming_dates */
  method GenerateUpcomingDates(start: Date, f: Frequency, count: int) returns (dates: seq<Date>)
    requires ValidDate(start)
    ensures dates == UpcomingDates(start, f, count)
  {
    dates := [];
    var current := start;
    var i := 0;
    while i < count
      invariant 0 <= i && (count > 0 ==> i <= count) && (count <= 0 ==> i == 0)
      invariant current == NthPaycheckDate(start, f, i)
      invariant dates == DatesBefore(start, f, i)
    {
      UpcomingStep(start, f, i);
      dates := dates + [current];
      current := NextPaycheckDate(current, f);
      i := i + 1;
    }
  }

  /** One more date: the next date of the last one. */
  lemma UpcomingStep(start: Date, f: Frequency, i: nat)
    requires ValidDate(start)
    ensures DatesBefore(start, f, i + 1) == DatesBefore(start, f, i) + [NthPaycheckDate(start, f, i)]
    ensures NthPaycheckDate(start, f, i + 1) == NextPaycheckDate(NthPaycheckDate(start, f, i), f)
  {
  }

  /** A semimonthly schedule that starts on a month's last day repeats that
      day. */
  lemma {:induction false} SemimonthlyStuck(start: Date, n: nat)
    requires ValidDate(start) && start.day == DaysInMonth(start.year, start.month)
    ensures NthPaycheckDate(start, Semimonthly, n) == start
  {
    if n > 0 {
      SemimonthlyStuck(start, n - 1);
      SemimonthlyMonthEnd(start);
    }
  }

  // ---------------------------------------------------------------------
  // get_paycheck_schedule

  /** How many dates the schedule asks for. */
  function ScheduleCount(f: Frequency, monthsAhead: int): int
  {
    match f
    case Weekly => monthsAhead * 4
    case Biweekly => monthsAhead * 2
    case Semimonthly => monthsAhead * 2
    case _ => monthsAhead
  }

  datatype Schedule = Schedule(paycheck: Paycheck, upcomingDates: seq<Date>, nextAmountCents: int)

  /** The user's paycheck with this id, by position. */
  function PaycheckIndex(ps: seq<Paycheck>, paycheckId: int, userId: int): (r: Option<nat>)
    ensures r.Some? ==> r.value < |ps| && ps[r.value].id == paycheckId && ps[r.value].userId == userId
    ensures r.None? ==> forall i :: 0 <= i < |ps| ==> !(ps[i].id == paycheckId && ps[i].userId == userId)
  {
    if ps == [] then None
    else if ps[0].id == paycheckId && ps[0].userId == userId then Some(0)
    else match PaycheckIndex(ps[1..], paycheckId, userId)
         case None => None
         case Some(i) => Some(i + 1)
  }

  /** The answer of the schedule endpoint (`months_ahead` between 1 and 12). */
  function ScheduleResponse(ps: seq<Paycheck>, userId: int, paycheckId: int, monthsAhead: int): Result<Schedule>
    requires DatesValid(ps)
  {
    if !(1 <= monthsAhead <= 12) then Err(Invalid("months_ahead"))
    else match PaycheckIndex(ps, paycheckId, userId)
         case None => Err(NotFound("Paycheck"))
         case Some(i) =>
           Ok(Schedule(ps[i], UpcomingDates(ps[i].nextDate, ps[i].frequency, ScheduleCount(ps[i].frequency, monthsAhead)),
                       ps[i].amountCents))
  }

  /** A found schedule lists 4 dates a month for a weekly paycheck, 2 for a
      biweekly or semimonthly one and 1 otherwise, starting at the
      paycheck's next date and stepping by its rule, and announces the
      paycheck's amount. */
  lemma ScheduleSound(ps: seq<Paycheck>, userId: int, paycheckId: int, monthsAhead: int)
    requires DatesValid(ps)
    ensures ScheduleResponse(ps, userId, paycheckId, monthsAhead) == Err(Invalid("months_ahead"))
            <==> !(1 <= monthsAhead <= 12)
    ensures ScheduleResponse(ps, userId, paycheckId, monthsAhead).Ok? ==>
      (var s := ScheduleResponse(ps, userId, paycheckId, monthsAhead).value;
       s.paycheck in ps && s.paycheck.id == paycheckId && s.paycheck.userId == userId
       && |s.upcomingDates| == (match s.paycheck.frequency
                                case Weekly => 4 * monthsAhead
                                case Biweekly => 2 * monthsAhead
                                case Semimonthly => 2 * monthsAhead
                                case _ => monthsAhead)
       && s.upcomingDates[0] == s.paycheck.nextDate
       && s.nextAmountCents == s.paycheck.amountCents
       && (forall i :: 0 <= i < |s.upcomingDates| - 1 ==>
             ValidDate(s.upcomingDates[i])
             && s.upcomingDates[i + 1] == NextPaycheckDate(s.upcomingDates[i], s.paycheck.frequency)))
  {
    var r := ScheduleResponse(ps, userId, paycheckId, monthsAhead);
    if r.Ok? {
      var i := PaycheckIndex(ps, paycheckId, userId).value;
      UpcomingDatesChain(ps[i].nextDate, ps[i].frequency, ScheduleCount(ps[i].frequency, monthsAhead));
    }
  }

  // ---------------------------------------------------------------------
  // The paycheck tables

  class PaycheckDb {
    var paychecks: seq<Paycheck>
    var instances: seq<Instance>
    var allocations: seq<Allocation>
    var nextId: int

    ghost predicate Valid()
      reads this
    {
      DatesValid(paychecks) && IdsBelow(instances, allocations, nextId)
    }

    constructor ()
      ensures Valid()
      ensures paychecks == [] && instances == [] && allocations == [] && nextId == 1
    {
      paychecks, instances, allocations := [], [], [];
      nextId := 1;
    }
  }

  /** get_paycheck_schedule */
  method GetPaycheckSchedule(db: PaycheckDb, userId: int, paycheckId: int, monthsAhead: int)
    returns (r: Result<Schedule>)
    requires db.Valid()
    ensures r == ScheduleResponse(db.paychecks, userId, paycheckId, monthsAhead)
  {
    if !(1 <= monthsAhead <= 12) {
      return Err(Invalid("months_ahead"));
    }
    var found := PaycheckIndex(db.paychecks, paycheckId, userId);
    if found.None? {
      return Err(NotFound("Paycheck"));
    }
    var p := db.paychecks[found.value];
    var count := ScheduleCount(p.frequency, monthsAhead);
    var dates := GenerateUpcomingDates(p.nextDate, p.frequency, count);
    return Ok(Schedule(p, dates, p.amountCents));
  }

  // ---------------------------------------------------------------------
  // update_paycheck

  /** The optional fields of an update; `allocations` replaces the
      paycheck's template allocations when given. */
  datatype PaycheckUpdate = PaycheckUpdate(
    name: Option<string>, amountCents: Option<int>, frequency: Option<Frequency>,
    nextDate: Option<Date>, isActive: Option<bool>, allocations: Option<seq<AllocationInput>>)

  const NoChange := PaycheckUpdate(None, None, None, None, None, None)

  /** The paycheck with the given fields set. */
  function Patched(p: Paycheck, u: PaycheckUpdate): (r: Paycheck)
    ensures r.id == p.id && r.userId == p.userId
    ensures u.name.None? ==> r.name == p.name
    ensures u.amountCents.None? ==> r.amountCents == p.amountCents
    ensures u.frequency.None? ==> r.frequency == p.frequency
    ensures u.nextDate.None? ==> r.nextDate == p.nextDate
    ensures u.isActive.None? ==> r.isActive == p.isActive
    ensures u.name.Some? ==> r.name == u.name.value
    ensures u.amountCents.Some? ==> r.amountCents == u.amountCents.value
    ensures u.frequency.Some? ==> r.frequency == u.frequency.value
    ensures u.nextDate.Some? ==> r.nextDate == u.nextDate.value
    ensures u.isActive.Some? ==> r.isActive == u.isActive.value
  {
    p.(name := if u.name.Some? then u.name.value else p.name,
       amountCents := if u.amountCents.Some? then u.amountCents.value else p.amountCents,
       frequency := if u.frequency.Some? then u.frequency.value else p.frequency,
       nextDate := if u.nextDate.Some? then u.nextDate.value else p.nextDate,
       isActive := if u.isActive.Some? then u.isActive.value else p.isActive)
  }

  /** An update without fields changes nothing, and applying the same
      update twice is applying it once. */
  lemma PatchedIdempotent(p: Paycheck, u: PaycheckUpdate)
    ensures Patched(p, NoChange) == p
    ensures Patched(Patched(p, u), u) == Patched(p, u)
  {
  }

  predicate IsTemplateOf(a: Allocation, paycheckId: int)
  {
    a.paycheckId == paycheckId && a.instanceId.None?
  }

  function TemplateOf(paycheckId: int): Allocation -> bool
  {
    (a: Allocation) => IsTemplateOf(a, paycheckId)
  }

  function NotTemplateOf(paycheckId: int): Allocation -> bool
  {
    (a: Allocation) => !IsTemplateOf(a, paycheckId)
  }

  function OfOtherPaycheck(paycheckId: int): Allocation -> bool
  {
    (a: Allocation) => a.paycheckId != paycheckId
  }

  function OfSomeInstance(): Allocation -> bool
  {
    (a: Allocation) => a.instanceId.Some?
  }

  /** New allocation rows for the inputs, with ids from firstId on. */
  function AllocationRows(inputs: seq<AllocationInput>, paycheckId: int, instanceId: Option<int>, firstId: int)
    : (r: seq<Allocation>)
    ensures |r| == |inputs|
    ensures forall i :: 0 <= i < |inputs| ==>
      r[i] == Allocation(firstId + i, paycheckId, instanceId, inputs[i].categoryId, inputs[i].amountCents, inputs[i].order)
  {
    if inputs == [] then []
    else
      var k := |inputs| - 1;
      AllocationRows(inputs[..k], paycheckId, instanceId, firstId)
      + [Allocation(firstId + k, paycheckId, instanceId, inputs[k].categoryId, inputs[k].amountCents, inputs[k].order)]
  }

  /** The template allocations of the paycheck deleted, then the new ones
      added. */
  function ReplaceTemplates(allocs: seq<Allocation>, paycheckId: int, inputs: seq<AllocationInput>, firstId: int)
    : seq<Allocation>
  {
    Filter(allocs, NotTemplateOf(paycheckId)) + AllocationRows(inputs, paycheckId, None, firstId)
  }

  /** Replacing the templates makes the given inputs the paycheck's only
      templates, in order, keeps every allocation of an instance, and keeps
      the allocations of every other paycheck as they were. */
  lemma ReplaceTemplatesSound(allocs: seq<Allocation>, paycheckId: int, inputs: seq<AllocationInput>, firstId: int)
    ensures Filter(ReplaceTemplates(allocs, paycheckId, inputs, firstId), TemplateOf(paycheckId))
            == AllocationRows(inputs, paycheckId, None, firstId)
    ensures Filter(ReplaceTemplates(allocs, paycheckId, inputs, firstId), OfSomeInstance())
            == Filter(allocs, OfSomeInstance())
    ensures Filter(ReplaceTemplates(allocs, paycheckId, inputs, firstId), OfOtherPaycheck(paycheckId))
            == Filter(allocs, OfOtherPaycheck(paycheckId))
  {
    var kept := Filter(allocs, NotTemplateOf(paycheckId));
    var rows := AllocationRows(inputs, paycheckId, None, firstId);
    FilterAppend(kept, rows, TemplateOf(paycheckId));
    FilterAppend(kept, rows, OfSomeInstance());
    FilterAppend(kept, rows, OfOtherPaycheck(paycheckId));
    FilterNone(kept, TemplateOf(paycheckId));
    FilterAll(rows, TemplateOf(paycheckId));
    forall x | x in rows ensures !OfSomeInstance()(x) && !OfOtherPaycheck(paycheckId)(x) {
    }
    FilterNone(rows, OfSomeInstance());
    FilterNone(rows, OfOtherPaycheck(paycheckId));
    FilterOfFilter(allocs, NotTemplateOf(paycheckId), OfSomeInstance());
    FilterOfFilter(allocs, NotTemplateOf(paycheckId), OfOtherPaycheck(paycheckId));
  }

  /** The fields of an update body that fail, in field order: a given name
      must have 1 to 255 characters, and a given net amount and every
      given allocation amount must not be negative. */
  function PaycheckUpdateErrors(u: PaycheckUpdate): (errors: seq<string>)
    ensures errors == [] <==>
      (u.name.Some? ==> NameValid(u.name.value)) && (u.amountCents.Some? ==> u.amountCents.value >= 0)
      && (u.allocations.Some? ==> forall a :: a in u.allocations.value ==> a.amountCents >= 0)
  {
    (if u.name.Some? && !NameValid(u.name.value) then ["name"] else [])
    + (if u.amountCents.Some? && u.amountCents.value < 0 then ["net_amount_cents"] else [])
    + (if u.allocations.Some? && exists a :: a in u.allocations.value && a.amountCents < 0 then ["allocations"] else [])
  }

  /** update_paycheck: an invalid body is refused with its first failing
      field; a paycheck of someone else is not found and nothing
      changes; otherwise the given fields are set and, when allocations are
      given, the paycheck's templates are replaced by them. */
  method UpdatePaycheck(db: PaycheckDb, userId: int, paycheckId: int, u: PaycheckUpdate)
    returns (r: Result<Paycheck>)
    requires db.Valid()
    requires u.nextDate.Some? ==> ValidDate(u.nextDate.value)
    modifies db
    ensures db.Valid()
    ensures PaycheckUpdateErrors(u) != [] ==>
      r == Err(Invalid(PaycheckUpdateErrors(u)[0])) && db.paychecks == old(db.paychecks)
      && db.allocations == old(db.allocations) && db.nextId == old(db.nextId)
    ensures PaycheckUpdateErrors(u) == [] && PaycheckIndex(old(db.paychecks), paycheckId, userId).None? ==>
      r == Err(NotFound("Paycheck")) && db.paychecks == old(db.paychecks)
      && db.allocations == old(db.allocations) && db.nextId == old(db.nextId)
    ensures PaycheckUpdateErrors(u) == [] && PaycheckIndex(old(db.paychecks), paycheckId, userId).Some? ==>
      var i := PaycheckIndex(old(db.paychecks), paycheckId, userId).value;
      db.paychecks == old(db.paychecks)[i := Patched(old(db.paychecks)[i], u)]
      && r == Ok(db.paychecks[i])
      && (u.allocations.None? ==> db.allocations == old(db.allocations) && db.nextId == old(db.nextId))
      && (u.allocations.Some? ==>
            db.allocations == ReplaceTemplates(old(db.allocations), paycheckId, u.allocations.value, old(db.nextId))
            && db.nextId == old(db.nextId) + |u.allocations.value|)
    ensures db.instances == old(db.instances)
  {
    var errors := PaycheckUpdateErrors(u);
    if errors != [] {
      return Err(Invalid(errors[0]));
    }
    var found := PaycheckIndex(db.paychecks, paycheckId, userId);
    if found.None? {
      return Err(NotFound("Paycheck"));
    }
    var i := found.value;
    var p := Patched(db.paychecks[i], u);
    PatchedKeepsDates(db.paychecks, i, u);
    db.paychecks := db.paychecks[i := p];
    if u.allocations.Some? {
      db.allocations := Filter(db.allocations, NotTemplateOf(paycheckId));
      RowsIdsBelow(db.instances, db.allocations, db.nextId, u.allocations.value, paycheckId, None);
      AddAllocationRows(db, u.allocations.value, paycheckId, None);
    }
    return Ok(p);
  }

  lemma PatchedKeepsDates(ps: seq<Paycheck>, i: nat, u: PaycheckUpdate)
    requires DatesValid(ps) && i < |ps|
    requires u.nextDate.Some? ==> ValidDate(u.nextDate.value)
    ensures DatesValid(ps[i := Patched(ps[i], u)])
  {
  }

  /** New rows take their ids from the counter, so every id stays below it. */
  lemma RowsIdsBelow(instances: seq<Instance>, allocs: seq<Allocation>, nextId: int,
                     inputs: seq<AllocationInput>, paycheckId: int, instanceId: Option<int>)
    requires IdsBelow(instances, allocs, nextId)
    requires instanceId.Some? ==> instanceId.value < nextId
    ensures IdsBelow(instances, allocs + AllocationRows(inputs, paycheckId, instanceId, nextId), nextId + |inputs|)
  {
    var rows := AllocationRows(inputs, paycheckId, instanceId, nextId);
    forall a | a in allocs + rows
      ensures a.id < nextId + |inputs| && (a.instanceId.Some? ==> a.instanceId.value < nextId + |inputs|)
    {
      if a !in allocs {
        var k :| 0 <= k < |rows| && rows[k] == a;
      }
    }
  }

  /** The loop that adds one allocation row per input, each with a fresh id. */
  method AddAllocationRows(db: PaycheckDb, inputs: seq<AllocationInput>, paycheckId: int, instanceId: Option<int>)
    modifies db
    ensures db.allocations == old(db.allocations) + AllocationRows(inputs, paycheckId, instanceId, old(db.nextId))
    ensures db.nextId == old(db.nextId) + |inputs|
    ensures db.paychecks == old(db.paychecks) && db.instances == old(db.instances)
  {
    ghost var start := db.allocations;
    var firstId := db.nextId;
    for k := 0 to |inputs|
      invariant db.allocations == start + AllocationRows(inputs[..k], paycheckId, instanceId, firstId)
      invariant db.nextId == firstId + k
      invariant db.paychecks == old(db.paychecks) && db.instances == old(db.instances)
    {
      assert inputs[..k + 1][..k] == inputs[..k];
      db.allocations := db.allocations + [Allocation(db.nextId, paycheckId, instanceId, inputs[k].categoryId,
                                                     inputs[k].amountCents, inputs[k].order)];
      db.nextId := db.nextId + 1;
    }
    assert inputs[..|inputs|] == inputs;
  }

  // ---------------------------------------------------------------------
  // get_budget_funding_plan

  datatype FundingPlan = FundingPlan(
    budgetId: int, month: int, year: int, totalIncomeCents: int, totalAllocatedCents: int,
    paychecks: seq<Instance>, availableCents: int, isFullyFunded: bool)

  function InstanceAmount(i: Instance): int { i.amountCents }

  function ForBudget(budgetId: int): Instance -> bool
  {
    (i: Instance) => i.budgetId == budgetId
  }

  /** Instances ordered by date (equal dates keep table order). */
  function ByDate(): (Instance, Instance) -> bool
  {
    (a: Instance, b: Instance) => DateLe(a.date, b.date)
  }

  lemma ByDateIsPreorder()
    ensures TotalPreorder(ByDate())
  {
  }

  /** The budget's instances, by date. */
  function BudgetInstances(instances: seq<Instance>, budgetId: int): seq<Instance>
  {
    SortBy(Filter(instances, ForBudget(budgetId)), ByDate())
  }

  function FundingPlanResponse(budgets: seq<Budget>, cats: seq<BudgetCategory>, instances: seq<Instance>,
                               userId: int, budgetId: int): Result<FundingPlan>
  {
    match OwnedBudget(budgets, budgetId, userId)
    case None => Err(NotFound("Budget"))
    case Some(b) =>
      var insts := BudgetInstances(instances, budgetId);
      var income := SumOf(insts, InstanceAmount);
      var totalAllocated := SumOf(CategoriesOf(cats, budgetId), AllocatedAmount);
      Ok(FundingPlan(budgetId, b.month, b.year, income, totalAllocated, insts, income - totalAllocated,
                     income - totalAllocated >= 0 && totalAllocated > 0))
  }

  /** The plan of a budget of the user lists exactly that budget's
      instances, ordered by date; the amount left to allocate is the
      instances' income less the categories' allocations, and the budget is
      fully funded exactly when that is not negative and something is
      allocated, so a budget without allocations never is. */
  lemma FundingPlanSound(budgets: seq<Budget>, cats: seq<BudgetCategory>, instances: seq<Instance>,
                         userId: int, budgetId: int)
    ensures FundingPlanResponse(budgets, cats, instances, userId, budgetId).Err? <==>
            OwnedBudget(budgets, budgetId, userId).None?
    ensures FundingPlanResponse(budgets, cats, instances, userId, budgetId).Ok? ==>
      (var plan := FundingPlanResponse(budgets, cats, instances, userId, budgetId).value;
       multiset(plan.paychecks) == multiset(Filter(instances, ForBudget(budgetId)))
       && SortedBy(plan.paychecks, ByDate())
       && plan.totalIncomeCents == SumOf(plan.paychecks, InstanceAmount)
       && plan.totalAllocatedCents == SumOf(CategoriesOf(cats, budgetId), AllocatedAmount)
       && plan.availableCents == plan.totalIncomeCents - plan.totalAllocatedCents
       && (plan.isFullyFunded <==> plan.totalIncomeCents >= plan.totalAllocatedCents > 0)
       && (CategoriesOf(cats, budgetId) == [] ==> !plan.isFullyFunded))
  {
    var filtered := Filter(instances, ForBudget(budgetId));
    SortByPermutes(filtered, ByDate());
    ByDateIsPreorder();
    SortBySorted(filtered, ByDate());
  }

  /** get_budget_funding_plan */
  method GetBudgetFundingPlan(db: PaycheckDb, budgets: seq<Budget>, cats: seq<BudgetCategory>,
                              userId: int, budgetId: int) returns (r: Result<FundingPlan>)
    ensures r == FundingPlanResponse(budgets, cats, db.instances, userId, budgetId)
  {
    var b := OwnedBudget(budgets, budgetId, userId);
    if b.None? {
      return Err(NotFound("Budget"));
    }
    var insts := SortedCopy(Filter(db.instances, ForBudget(budgetId)), ByDate());
    var income := SumOf(insts, InstanceAmount);
    var totalAllocated := SumOf(CategoriesOf(cats, budgetId), AllocatedAmount);
    var available := income - totalAllocated;
    return Ok(FundingPlan(budgetId, b.value.month, b.value.year, income, totalAllocated, insts, available,
                          available >= 0 && totalAllocated > 0));
  }

  // ---------------------------------------------------------------------
  // get_category_funding_status

  datatype FundingSource = FundingSource(instanceId: Option<int>, amountCents: int)

  datatype CategoryFunding = CategoryFunding(
    categoryId: int, categoryName: string, allocatedCents: int, fundedCents: int,
    remainingCents: int, isFullyFunded: bool, fundingSources: seq<FundingSource>)

  /** The allocations joined to an instance of the budget. */
  function FundedFrom(instances: seq<Instance>, budgetId: int): Allocation -> bool
  {
    (a: Allocation) => a.instanceId.Some?
      && exists k :: 0 <= k < |instances| && instances[k].id == a.instanceId.value && instances[k].budgetId == budgetId
  }

  function BudgetAllocations(instances: seq<Instance>, allocations: seq<Allocation>, budgetId: int): seq<Allocation>
  {
    Filter(allocations, FundedFrom(instances, budgetId))
  }

  function ToCategory(categoryId: int): Allocation -> bool
  {
    (a: Allocation) => a.categoryId == categoryId
  }

  function AllocationAmountOf(a: Allocation): int { a.amountCents }

  function Sources(allocs: seq<Allocation>): (r: seq<FundingSource>)
    ensures |r| == |allocs|
    ensures forall i :: 0 <= i < |allocs| ==> r[i] == FundingSource(allocs[i].instanceId, allocs[i].amountCents)
  {
    if allocs == [] then []
    else Sources(allocs[..|allocs| - 1]) + [FundingSource(allocs[|allocs| - 1].instanceId, allocs[|allocs| - 1].amountCents)]
  }

  /** What the grouping loop collects for one category. */
  datatype Funding = Funding(fundedCents: int, sources: seq<FundingSource>)

  function FundingOf(allocs: seq<Allocation>, categoryId: int): Funding
  {
    var mine := Filter(allocs, ToCategory(categoryId));
    Funding(SumOf(mine, AllocationAmountOf), Sources(mine))
  }

  function FundingRow(c: BudgetCategory, f: Funding): CategoryFunding
  {
    CategoryFunding(c.id, c.name, c.allocatedCents, f.fundedCents, c.allocatedCents - f.fundedCents,
                    c.allocatedCents - f.fundedCents <= 0, f.sources)
  }

  /** One row per category, in the budget's category order. */
  function FundingRows(cats: seq<BudgetCategory>, allocs: seq<Allocation>): (r: seq<CategoryFunding>)
    ensures |r| == |cats|
    ensures forall k :: 0 <= k < |cats| ==> r[k] == FundingRow(cats[k], FundingOf(allocs, cats[k].id))
  {
    if cats == [] then []
    else
      var n := |cats| - 1;
      FundingRows(cats[..n], allocs) + [FundingRow(cats[n], FundingOf(allocs, cats[n].id))]
  }

  function CategoryFundingResponse(budgets: seq<Budget>, cats: seq<BudgetCategory>, instances: seq<Instance>,
                                   allocations: seq<Allocation>, userId: int, budgetId: int)
    : Result<seq<CategoryFunding>>
  {
    if OwnedBudget(budgets, budgetId, userId).None? then Err(NotFound("Budget"))
    else Ok(FundingRows(CategoriesOf(cats, budgetId), BudgetAllocations(instances, allocations, budgetId)))
  }

  /** The dictionary holds, for every category seen in allocs, the sum and
      the sources of its allocations, and no other category. */
  ghost predicate Grouped(m: map<int, Funding>, allocs: seq<Allocation>)
  {
    (forall id :: id in m ==> m[id] == FundingOf(allocs, id))
    && (forall id :: id !in m ==> Filter(allocs, ToCategory(id)) == [])
  }

  /** The body of the grouping loop. */
  function AddFunding(m: map<int, Funding>, a: Allocation): map<int, Funding>
  {
    var e := if a.categoryId in m then m[a.categoryId] else Funding(0, []);
    m[a.categoryId := Funding(e.fundedCents + a.amountCents, e.sources + [FundingSource(a.instanceId, a.amountCents)])]
  }

  /** The grouping loop: a dictionary from category id to the sum and the
      sources of that category's allocations seen so far. */
  method GroupFunding(allocs: seq<Allocation>) returns (m: map<int, Funding>)
    ensures Grouped(m, allocs)
  {
    m := map[];
    GroupedEmpty();
    for i := 0 to |allocs|
      invariant Grouped(m, allocs[..i])
    {
      var a := allocs[i];
      assert allocs[..i + 1] == allocs[..i] + [a];
      GroupedStep(m, allocs[..i], a);
      m := AddFunding(m, a);
    }
    assert allocs[..|allocs|] == allocs;
  }

  lemma GroupedEmpty()
    ensures Grouped(map[], [])
  {
  }

  /** One more allocation adds to its own category and to no other. */
  lemma GroupedStep(m: map<int, Funding>, allocs: seq<Allocation>, a: Allocation)
    requires Grouped(m, allocs)
    ensures Grouped(AddFunding(m, a), allocs + [a])
  {
    var m' := AddFunding(m, a);
    forall id | id in m' ensures m'[id] == FundingOf(allocs + [a], id) {
      FundingOfSnoc(allocs, a, id);
    }
    forall id | id !in m' ensures Filter(allocs + [a], ToCategory(id)) == [] {
      CategoryAllocsSnoc(allocs, a, id);
    }
  }

  lemma CategoryAllocsSnoc(allocs: seq<Allocation>, a: Allocation, id: int)
    ensures Filter(allocs + [a], ToCategory(id)) == Filter(allocs, ToCategory(id)) + (if a.categoryId == id then [a] else [])
  {
    assert (allocs + [a])[..|allocs|] == allocs;
  }

  /** One more allocation adds to its own category and to no other. */
  lemma FundingOfSnoc(allocs: seq<Allocation>, a: Allocation, id: int)
    ensures FundingOf(allocs + [a], id)
            == if a.categoryId == id
               then Funding(FundingOf(allocs, id).fundedCents + a.amountCents,
                            FundingOf(allocs, id).sources + [FundingSource(a.instanceId, a.amountCents)])
               else FundingOf(allocs, id)
  {
    CategoryAllocsSnoc(allocs, a, id);
    var mine := Filter(allocs, ToCategory(id));
    if a.categoryId == id {
      FundingOfSnocMine(allocs, mine, a, id);
    } else {
      assert Filter(allocs + [a], ToCategory(id)) == mine;
    }
  }

  lemma FundingOfSnocMine(allocs: seq<Allocation>, mine: seq<Allocation>, a: Allocation, id: int)
    requires mine == Filter(allocs, ToCategory(id))
    requires Filter(allocs + [a], ToCategory(id)) == mine + [a]
    ensures FundingOf(allocs + [a], id)
            == Funding(FundingOf(allocs, id).fundedCents + a.amountCents,
                       FundingOf(allocs, id).sources + [FundingSource(a.instanceId, a.amountCents)])
  {
    SumOfSnoc(mine, a, AllocationAmountOf);
    SourcesSnoc(mine, a);
  }

  lemma SourcesSnoc(allocs: seq<Allocation>, a: Allocation)
    ensures Sources(allocs + [a]) == Sources(allocs) + [FundingSource(a.instanceId, a.amountCents)]
  {
    assert (allocs + [a])[..|allocs|] == allocs;
  }

  /** get_category_funding_status */
  method GetCategoryFundingStatus(db: PaycheckDb, budgets: seq<Budget>, cats: seq<BudgetCategory>,
                                  userId: int, budgetId: int) returns (r: Result<seq<CategoryFunding>>)
    ensures r == CategoryFundingResponse(budgets, cats, db.instances, db.allocations, userId, budgetId)
  {
    if OwnedBudget(budgets, budgetId, userId).None? {
      return Err(NotFound("Budget"));
    }
    var allocs := BudgetAllocations(db.instances, db.allocations, budgetId);
    var m := GroupFunding(allocs);
    var budgetCats := CategoriesOf(cats, budgetId);
    var rows: seq<CategoryFunding> := [];
    for k := 0 to |budgetCats|
      invariant rows == FundingRows(budgetCats[..k], allocs)
    {
      var c := budgetCats[k];
      var f := if c.id in m then m[c.id] else Funding(0, []);
      GroupedLookup(m, allocs, c.id);
      FundingRowsPrefix(budgetCats, k, allocs);
      rows := rows + [FundingRow(c, f)];
    }
    assert budgetCats[..|budgetCats|] == budgetCats;
    return Ok(rows);
  }

  /** A category missing from the dictionary has no funding. */
  lemma GroupedLookup(m: map<int, Funding>, allocs: seq<Allocation>, id: int)
    requires Grouped(m, allocs)
    ensures (if id in m then m[id] else Funding(0, [])) == FundingOf(allocs, id)
  {
    if id !in m {
      assert Filter(allocs, ToCategory(id)) == [];
    }
  }

  lemma FundingRowsPrefix(cats: seq<BudgetCategory>, k: nat, allocs: seq<Allocation>)
    requires k < |cats|
    ensures FundingRows(cats[..k + 1], allocs) == FundingRows(cats[..k], allocs) + [FundingRow(cats[k], FundingOf(allocs, cats[k].id))]
  {
    assert cats[..k + 1][..k] == cats[..k];
  }

  /** Each row's funded amount is the sum of its category's allocations
      from the budget's instances (0, with no sources, when there are
      none); remaining is allocated less funded, and the row is fully
      funded exactly when nothing remains. */
  lemma CategoryFundingSound(budgets: seq<Budget>, cats: seq<BudgetCategory>, instances: seq<Instance>,
                             allocations: seq<Allocation>, userId: int, budgetId: int)
    ensures CategoryFundingResponse(budgets, cats, instances, allocations, userId, budgetId).Err? <==>
            OwnedBudget(budgets, budgetId, userId).None?
    ensures CategoryFundingResponse(budgets, cats, instances, allocations, userId, budgetId).Ok? ==>
      (var rows := CategoryFundingResponse(budgets, cats, instances, allocations, userId, budgetId).value;
       var ours := CategoriesOf(cats, budgetId);
       var allocs := BudgetAllocations(instances, allocations, budgetId);
       |rows| == |ours|
       && forall k :: 0 <= k < |rows| ==>
            rows[k].categoryId == ours[k].id && rows[k].allocatedCents == ours[k].allocatedCents
            && rows[k].fundedCents == SumOf(Filter(allocs, ToCategory(ours[k].id)), AllocationAmountOf)
            && rows[k].remainingCents == rows[k].allocatedCents - rows[k].fundedCents
            && (rows[k].isFullyFunded <==> rows[k].fundedCents >= rows[k].allocatedCents)
            && |rows[k].fundingSources| == |Filter(allocs, ToCategory(ours[k].id))|)
  {
  }

  /** Id set of a list of categories. */
  function CategoryIds(cats: seq<BudgetCategory>): set<int>
  {
    if cats == [] then {} else CategoryIds(cats[..|cats| - 1]) + {cats[|cats| - 1].id}
  }

  ghost predicate DistinctCategoryIds(cats: seq<BudgetCategory>)
  {
    forall i, j :: 0 <= i < j < |cats| ==> cats[i].id != cats[j].id
  }

  function ToAnyOf(ids: set<int>): Allocation -> bool
  {
    (a: Allocation) => a.categoryId in ids
  }

  function RowFunded(r: CategoryFunding): int { r.fundedCents }

  lemma {:induction false} CategoryIdsMember(cats: seq<BudgetCategory>, id: int)
    ensures id in CategoryIds(cats) <==> exists k :: 0 <= k < |cats| && cats[k].id == id
  {
    if cats != [] {
      CategoryIdsMember(cats[..|cats| - 1], id);
      if id in CategoryIds(cats[..|cats| - 1]) {
        var k :| 0 <= k < |cats| - 1 && cats[..|cats| - 1][k].id == id;
        assert cats[k].id == id;
      }
    }
  }

  /** With distinct category ids, the rows' funded amounts add up to the
      allocations on those categories: no allocation is counted twice. */
  lemma {:induction false} FundedTotal(cats: seq<BudgetCategory>, allocs: seq<Allocation>)
    requires DistinctCategoryIds(cats)
    ensures SumOf(FundingRows(cats, allocs), RowFunded)
            == SumOf(Filter(allocs, ToAnyOf(CategoryIds(cats))), AllocationAmountOf)
  {
    if cats == [] {
      FilterNone(allocs, ToAnyOf({}));
    } else {
      var n := |cats| - 1;
      var init := cats[..n];
      assert DistinctCategoryIds(init);
      FundedTotal(init, allocs);
      var rows := FundingRows(cats, allocs);
      assert rows[..n] == FundingRows(init, allocs);
      CategoryIdsMember(init, cats[n].id);
      assert cats[n].id !in CategoryIds(init);
      SumOfFilterSplit(allocs, ToAnyOf(CategoryIds(init)), ToCategory(cats[n].id), ToAnyOf(CategoryIds(cats)),
                       AllocationAmountOf);
    }
  }

  /** When every allocation of the budget's instances goes to one of the
      budget's categories, the funded column adds up to all of them. */
  lemma FundedTotalAll(cats: seq<BudgetCategory>, allocs: seq<Allocation>)
    requires DistinctCategoryIds(cats)
    requires forall a :: a in allocs ==> exists k :: 0 <= k < |cats| && cats[k].id == a.categoryId
    ensures SumOf(FundingRows(cats, allocs), RowFunded) == SumOf(allocs, AllocationAmountOf)
  {
    FundedTotal(cats, allocs);
    forall a | a in allocs ensures ToAnyOf(CategoryIds(cats))(a) {
      CategoryIdsMember(cats, a.categoryId);
    }
    FilterAll(allocs, ToAnyOf(CategoryIds(cats)));
  }

  // ---------------------------------------------------------------------
  // auto_allocate_paychecks

  /** The tables auto-allocation writes, and the instances it created so
      far, in creation order. */
  datatype Ledger = Ledger(instances: seq<Instance>, allocations: seq<Allocation>, nextId: int,
                           created: seq<Instance>)

  predicate SameSlot(i: Instance, paycheckId: int, budgetId: int, d: Date)
  {
    i.paycheckId == paycheckId && i.budgetId == budgetId && i.date == d
  }

  /** An instance of the paycheck for that budget and date exists. */
  predicate HasInstance(instances: seq<Instance>, paycheckId: int, budgetId: int, d: Date)
  {
    exists i :: i in instances && SameSlot(i, paycheckId, budgetId, d)
  }

  /** No two instances share paycheck, budget and date. */
  ghost predicate NoDuplicateInstances(instances: seq<Instance>)
  {
    forall i, j :: 0 <= i < j < |instances| ==>
      !SameSlot(instances[j], instances[i].paycheckId, instances[i].budgetId, instances[i].date)
  }

  /** The paycheck's template allocations, in table order. */
  function Templates(allocs: seq<Allocation>, paycheckId: int): seq<Allocation>
  {
    Filter(allocs, TemplateOf(paycheckId))
  }

  function OfInstance(instanceId: int): Allocation -> bool
  {
    (a: Allocation) => a.instanceId == Some(instanceId)
  }

  /** Category, amount and order of each allocation. */
  function AsInputs(allocs: seq<Allocation>): (r: seq<AllocationInput>)
    ensures |r| == |allocs|
    ensures forall i :: 0 <= i < |allocs| ==>
      r[i] == AllocationInput(allocs[i].categoryId, allocs[i].amountCents, allocs[i].order)
  {
    if allocs == [] then []
    else
      var k := |allocs| - 1;
      AsInputs(allocs[..k]) + [AllocationInput(allocs[k].categoryId, allocs[k].amountCents, allocs[k].order)]
  }

  /** The copies of the templates made for a new instance, with ids right
      after the instance's own. */
  function Copies(templates: seq<Allocation>, paycheckId: int, instanceId: int): seq<Allocation>
  {
    AllocationRows(AsInputs(templates), paycheckId, Some(instanceId), instanceId + 1)
  }

  /** One date of one paycheck: skipped when its instance exists, otherwise
      an unreceived instance of the paycheck's amount is added and the
      paycheck's templates are copied onto it. */
  function CreateInstance(l: Ledger, p: Paycheck, budgetId: int, d: Date): Ledger
  {
    if HasInstance(l.instances, p.id, budgetId, d) then l
    else
      var inst := Instance(l.nextId, p.id, budgetId, p.amountCents, d, false);
      var copies := Copies(Templates(l.allocations, p.id), p.id, l.nextId);
      Ledger(l.instances + [inst], l.allocations + copies, l.nextId + 1 + |copies|, l.created + [inst])
  }

  /** The inner loop, over the paycheck's dates of the month. */
  function CreateForDates(l: Ledger, p: Paycheck, budgetId: int, dates: seq<Date>): Ledger
  {
    if dates == [] then l
    else CreateInstance(CreateForDates(l, p, budgetId, dates[..|dates| - 1]), p, budgetId, dates[|dates| - 1])
  }

  /** Dates from the first to the last day of month m of year y. */
  function InMonth(y: int, m: int): Date -> bool
  {
    (d: Date) => 1 <= m <= 12 && DateLe(Date(y, m, 1), d) && DateLe(d, LastDayOfMonth(y, m))
  }

  /** The paycheck's next twelve dates that fall in the month. */
  function MonthDates(p: Paycheck, y: int, m: int): seq<Date>
    requires ValidDate(p.nextDate)
  {
    Filter(UpcomingDates(p.nextDate, p.frequency, 12), InMonth(y, m))
  }

  /** The outer loop, over the active paychecks. */
  function CreateForPaychecks(l: Ledger, ps: seq<Paycheck>, budgetId: int, y: int, m: int): Ledger
    requires DatesValid(ps)
  {
    if ps == [] then l
    else
      var p := ps[|ps| - 1];
      CreateForDates(CreateForPaychecks(l, ps[..|ps| - 1], budgetId, y, m), p, budgetId, MonthDates(p, y, m))
  }

  function ActiveOf(userId: int): Paycheck -> bool
  {
    (p: Paycheck) => p.userId == userId && p.isActive
  }

  /** The answer of the auto-allocate endpoint, with the tables after it. */
  function AutoAllocation(budgets: seq<Budget>, ps: seq<Paycheck>, instances: seq<Instance>,
                          allocations: seq<Allocation>, nextId: int, userId: int, budgetId: int): Result<Ledger>
    requires DatesValid(ps)
  {
    var b := OwnedBudget(budgets, budgetId, userId);
    if b.None? then Err(NotFound("Budget"))
    else
      var active := Filter(ps, ActiveOf(userId));
      if active == [] then Err(BadRequest("No active paychecks found"))
      else Ok(CreateForPaychecks(Ledger(instances, allocations, nextId, []), active, budgetId, b.value.year, b.value.month))
  }

  /** A created instance belongs to the budget, lies in its month, is not
      received, and is one of the next twelve dates of an active paycheck,
      whose amount it takes. */
  ghost predicate CreatedFrom(c: Instance, ps: seq<Paycheck>, budgetId: int, y: int, m: int)
  {
    c.budgetId == budgetId && c.date.year == y && c.date.month == m && !c.isReceived
    && exists p :: p in ps && ValidDate(p.nextDate) && p.id == c.paycheckId && p.amountCents == c.amountCents
                   && c.date in UpcomingDates(p.nextDate, p.frequency, 12)
  }

  /** What holds of a ledger l reached from l0 by creating instances for
      paychecks of ps. */
  ghost predicate Sound(l0: Ledger, l: Ledger, ps: seq<Paycheck>, budgetId: int, y: int, m: int)
  {
    l.instances == l0.instances + l.created
    && IdsBelow(l.instances, l.allocations, l.nextId)
    && l0.nextId <= l.nextId
    && (forall q :: Templates(l.allocations, q) == Templates(l0.allocations, q))
    && (forall c :: c in l.created ==> CreatedFrom(c, ps, budgetId, y, m) && l0.nextId <= c.id)
    && (forall c :: c in l.created ==>
          Filter(l.allocations, OfInstance(c.id)) == Copies(Templates(l0.allocations, c.paycheckId), c.paycheckId, c.id))
    && (NoDuplicateInstances(l0.instances) ==> NoDuplicateInstances(l.instances))
  }

  lemma SoundStart(l0: Ledger, ps: seq<Paycheck>, budgetId: int, y: int, m: int)
    requires l0.created == [] && IdsBelow(l0.instances, l0.allocations, l0.nextId)
    ensures Sound(l0, l0, ps, budgetId, y, m)
  {
    assert l0.instances + [] == l0.instances;
  }

  /** Copies are allocations of the new instance and never templates. */
  lemma CopiesShape(templates: seq<Allocation>, paycheckId: int, instanceId: int)
    ensures Filter(Copies(templates, paycheckId, instanceId), OfInstance(instanceId))
            == Copies(templates, paycheckId, instanceId)
    ensures forall q :: Templates(Copies(templates, paycheckId, instanceId), q) == []
    ensures forall other :: other != instanceId ==> Filter(Copies(templates, paycheckId, instanceId), OfInstance(other)) == []
  {
    var copies := Copies(templates, paycheckId, instanceId);
    FilterAll(copies, OfInstance(instanceId));
    forall q ensures Templates(copies, q) == [] {
      FilterNone(copies, TemplateOf(q));
    }
    forall other | other != instanceId ensures Filter(copies, OfInstance(other)) == [] {
      FilterNone(copies, OfInstance(other));
    }
  }

  /** One created instance keeps the ledger sound. */
  lemma CreateInstanceSound(l0: Ledger, l: Ledger, p: Paycheck, ps: seq<Paycheck>, budgetId: int,
                            y: int, m: int, d: Date)
    requires Sound(l0, l, ps, budgetId, y, m)
    requires p in ps && ValidDate(p.nextDate) && d in MonthDates(p, y, m)
    ensures Sound(l0, CreateInstance(l, p, budgetId, d), ps, budgetId, y, m)
    ensures HasInstance(CreateInstance(l, p, budgetId, d).instances, p.id, budgetId, d)
    ensures l.instances <= CreateInstance(l, p, budgetId, d).instances
  {
    if !HasInstance(l.instances, p.id, budgetId, d) {
      NewInstanceSound(l0, l, p, ps, budgetId, y, m, d);
    }
  }

  lemma NewInstanceSound(l0: Ledger, l: Ledger, p: Paycheck, ps: seq<Paycheck>, budgetId: int,
                         y: int, m: int, d: Date)
    requires Sound(l0, l, ps, budgetId, y, m)
    requires p in ps && ValidDate(p.nextDate) && d in MonthDates(p, y, m)
    requires !HasInstance(l.instances, p.id, budgetId, d)
    ensures Sound(l0, CreateInstance(l, p, budgetId, d), ps, budgetId, y, m)
    ensures HasInstance(CreateInstance(l, p, budgetId, d).instances, p.id, budgetId, d)
    ensures l.instances <= CreateInstance(l, p, budgetId, d).instances
  {
    var inst := Instance(l.nextId, p.id, budgetId, p.amountCents, d, false);
    NewInstanceShape(l0, l, p, budgetId, d);
    NewInstanceCreatedFrom(p, ps, budgetId, y, m, d, l.nextId);
    CreatedSnoc(l.created, inst, ps, budgetId, y, m, l0.nextId);
    NewInstanceTemplates(l0.allocations, l.allocations, p, l.nextId);
    assert forall c :: c in l.created ==> c in l.instances;
    NewInstanceCopies(l0.allocations, l.allocations, l.created, inst);
    NoDuplicateSnoc(l.instances, inst);
  }

  /** A new instance takes the next id, is recorded as created, and its
      copies take the ids after it. */
  lemma NewInstanceShape(l0: Ledger, l: Ledger, p: Paycheck, budgetId: int, d: Date)
    requires l.instances == l0.instances + l.created
    requires IdsBelow(l.instances, l.allocations, l.nextId) && l0.nextId <= l.nextId
    requires !HasInstance(l.instances, p.id, budgetId, d)
    ensures var inst := Instance(l.nextId, p.id, budgetId, p.amountCents, d, false);
      var l' := CreateInstance(l, p, budgetId, d);
      l' == Ledger(l.instances + [inst], l.allocations + Copies(Templates(l.allocations, p.id), p.id, l.nextId),
                   l'.nextId, l.created + [inst])
      && l'.instances == l0.instances + l'.created
      && IdsBelow(l'.instances, l'.allocations, l'.nextId) && l0.nextId <= l'.nextId
      && HasInstance(l'.instances, p.id, budgetId, d) && l.instances <= l'.instances
  {
    var inst := Instance(l.nextId, p.id, budgetId, p.amountCents, d, false);
    var copies := Copies(Templates(l.allocations, p.id), p.id, l.nextId);
    var l' := Ledger(l.instances + [inst], l.allocations + copies, l.nextId + 1 + |copies|, l.created + [inst]);
    assert CreateInstance(l, p, budgetId, d) == l';
    assert l'.instances == l0.instances + l'.created;
    RowsIdsBelow(l.instances + [inst], l.allocations, l.nextId + 1, AsInputs(Templates(l.allocations, p.id)),
                 p.id, Some(l.nextId));
    assert inst in l'.instances;
  }

  lemma CreatedSnoc(created: seq<Instance>, inst: Instance, ps: seq<Paycheck>, budgetId: int, y: int, m: int, first: int)
    requires forall c :: c in created ==> CreatedFrom(c, ps, budgetId, y, m) && first <= c.id
    requires CreatedFrom(inst, ps, budgetId, y, m) && first <= inst.id
    ensures forall c :: c in created + [inst] ==> CreatedFrom(c, ps, budgetId, y, m) && first <= c.id
  {
    forall c | c in created + [inst] ensures CreatedFrom(c, ps, budgetId, y, m) && first <= c.id {
      if c != inst {
        assert c in created;
      }
    }
  }

  lemma NewInstanceCreatedFrom(p: Paycheck, ps: seq<Paycheck>, budgetId: int, y: int, m: int, d: Date, id: int)
    requires p in ps && ValidDate(p.nextDate) && d in MonthDates(p, y, m)
    ensures CreatedFrom(Instance(id, p.id, budgetId, p.amountCents, d, false), ps, budgetId, y, m)
  {
    assert d in UpcomingDates(p.nextDate, p.frequency, 12) && InMonth(y, m)(d);
    UpcomingDatesValid(p.nextDate, p.frequency, 12, d);
    WithinMonth(d, y, m);
  }

  /** The copies leave every template alone. */
  lemma NewInstanceTemplates(a0: seq<Allocation>, allocs: seq<Allocation>, p: Paycheck, id: int)
    requires forall q :: Templates(allocs, q) == Templates(a0, q)
    ensures forall q :: Templates(allocs + Copies(Templates(allocs, p.id), p.id, id), q) == Templates(a0, q)
  {
    var copies := Copies(Templates(allocs, p.id), p.id, id);
    CopiesShape(Templates(allocs, p.id), p.id, id);
    forall q ensures Templates(allocs + copies, q) == Templates(a0, q) {
      FilterAppend(allocs, copies, TemplateOf(q));
      assert Templates(allocs + copies, q) == Templates(allocs, q) + Templates(copies, q);
      assert Templates(copies, q) == [];
      assert Templates(allocs, q) + [] == Templates(allocs, q);
    }
  }

  /** The copies belong to the new instance only, and are exactly its
      paycheck's templates. */
  lemma NewInstanceCopies(a0: seq<Allocation>, allocs: seq<Allocation>, created: seq<Instance>, inst: Instance)
    requires forall a :: a in allocs ==> (a.instanceId.Some? ==> a.instanceId.value < inst.id)
    requires forall c :: c in created ==> c.id < inst.id
    requires forall c :: c in created ==>
      Filter(allocs, OfInstance(c.id)) == Copies(Templates(a0, c.paycheckId), c.paycheckId, c.id)
    requires Templates(allocs, inst.paycheckId) == Templates(a0, inst.paycheckId)
    ensures var allocs' := allocs + Copies(Templates(allocs, inst.paycheckId), inst.paycheckId, inst.id);
      forall c :: c in created + [inst] ==>
        Filter(allocs', OfInstance(c.id)) == Copies(Templates(a0, c.paycheckId), c.paycheckId, c.id)
  {
    var copies := Copies(Templates(allocs, inst.paycheckId), inst.paycheckId, inst.id);
    CopiesShape(Templates(allocs, inst.paycheckId), inst.paycheckId, inst.id);
    forall c | c in created + [inst]
      ensures Filter(allocs + copies, OfInstance(c.id)) == Copies(Templates(a0, c.paycheckId), c.paycheckId, c.id)
    {
      FilterAppend(allocs, copies, OfInstance(c.id));
      if c == inst {
        FilterNone(allocs, OfInstance(c.id));
      } else {
        assert c in created;
        assert Filter(allocs, OfInstance(c.id)) + [] == Filter(allocs, OfInstance(c.id));
      }
    }
  }

  /** Each date of the month lies between the first and last day, and so
      is a real date of that month. */
  lemma UpcomingDatesValid(start: Date, f: Frequency, count: int, d: Date)
    requires ValidDate(start) && d in UpcomingDates(start, f, count)
    ensures ValidDate(d)
  {
    UpcomingDatesChain(start, f, count);
  }

  lemma NoDuplicateSnoc(instances: seq<Instance>, inst: Instance)
    requires !HasInstance(instances, inst.paycheckId, inst.budgetId, inst.date)
    ensures NoDuplicateInstances(instances) ==> NoDuplicateInstances(instances + [inst])
  {
    var s := instances + [inst];
    if NoDuplicateInstances(instances) {
      forall i, j | 0 <= i < j < |s| ensures !SameSlot(s[j], s[i].paycheckId, s[i].budgetId, s[i].date) {
        if j == |instances| {
          assert s[i] in instances;
        } else {
          assert s[i] == instances[i] && s[j] == instances[j];
        }
      }
    }
  }

  lemma HasInstanceGrows(xs: seq<Instance>, ys: seq<Instance>, paycheckId: int, budgetId: int, d: Date)
    requires xs <= ys && HasInstance(xs, paycheckId, budgetId, d)
    ensures HasInstance(ys, paycheckId, budgetId, d)
  {
    var i :| i in xs && SameSlot(i, paycheckId, budgetId, d);
    var k :| 0 <= k < |xs| && xs[k] == i;
    assert ys[k] == i;
  }

  /** The inner loop keeps the ledger sound and leaves an instance for
      every date it was given. */
  lemma {:induction false} CreateForDatesSound(l0: Ledger, l: Ledger, p: Paycheck, ps: seq<Paycheck>, budgetId: int,
                                               y: int, m: int, dates: seq<Date>)
    requires Sound(l0, l, ps, budgetId, y, m) && p in ps && ValidDate(p.nextDate)
    requires forall d :: d in dates ==> d in MonthDates(p, y, m)
    ensures Sound(l0, CreateForDates(l, p, budgetId, dates), ps, budgetId, y, m)
    ensures l.instances <= CreateForDates(l, p, budgetId, dates).instances
    ensures forall d :: d in dates ==> HasInstance(CreateForDates(l, p, budgetId, dates).instances, p.id, budgetId, d)
  {
    if dates != [] {
      var init, last := dates[..|dates| - 1], dates[|dates| - 1];
      CreateForDatesSound(l0, l, p, ps, budgetId, y, m, init);
      var mid := CreateForDates(l, p, budgetId, init);
      var r := CreateInstance(mid, p, budgetId, last);
      assert r == CreateForDates(l, p, budgetId, dates);
      CreateInstanceSound(l0, mid, p, ps, budgetId, y, m, last);
      forall d | d in dates ensures HasInstance(r.instances, p.id, budgetId, d) {
        if d != last {
          assert d in init;
          HasInstanceGrows(mid.instances, r.instances, p.id, budgetId, d);
        }
      }
    }
  }

  /** The outer loop keeps the ledger sound and leaves an instance for
      every paycheck date of the month. */
  lemma {:induction false} CreateForPaychecksSound(l0: Ledger, l: Ledger, qs: seq<Paycheck>, ps: seq<Paycheck>,
                                                   budgetId: int, y: int, m: int)
    requires Sound(l0, l, ps, budgetId, y, m) && DatesValid(qs) && forall q :: q in qs ==> q in ps
    ensures Sound(l0, CreateForPaychecks(l, qs, budgetId, y, m), ps, budgetId, y, m)
    ensures l.instances <= CreateForPaychecks(l, qs, budgetId, y, m).instances
    ensures forall q, d :: q in qs && d in MonthDates(q, y, m) ==>
      HasInstance(CreateForPaychecks(l, qs, budgetId, y, m).instances, q.id, budgetId, d)
  {
    if qs != [] {
      var init, last := qs[..|qs| - 1], qs[|qs| - 1];
      assert DatesValid(init);
      CreateForPaychecksSound(l0, l, init, ps, budgetId, y, m);
      var mid := CreateForPaychecks(l, init, budgetId, y, m);
      var r := CreateForDates(mid, last, budgetId, MonthDates(last, y, m));
      assert r == CreateForPaychecks(l, qs, budgetId, y, m);
      CreateForDatesSound(l0, mid, last, ps, budgetId, y, m, MonthDates(last, y, m));
      forall q, d | q in qs && d in MonthDates(q, y, m) ensures HasInstance(r.instances, q.id, budgetId, d) {
        if q != last {
          assert q in init;
          HasInstanceGrows(mid.instances, r.instances, q.id, budgetId, d);
        }
      }
    }
  }

  /** auto_allocate_paychecks: a budget of someone else is not found and a
      user without active paychecks is refused. Otherwise the instances
      table only grows, by the created instances; each of them belongs to
      the budget, lies in its month, is unreceived, is one of the next
      twelve dates of an active paycheck of the user and takes its amount,
      and its allocations are copies of that paycheck's templates, in
      order. Templates do not change and no paycheck, budget and date get
      a second instance; afterwards every date of the month of every
      active paycheck has its instance. */
  lemma AutoAllocationSound(budgets: seq<Budget>, ps: seq<Paycheck>, instances: seq<Instance>,
                            allocations: seq<Allocation>, nextId: int, userId: int, budgetId: int)
    requires DatesValid(ps) && IdsBelow(instances, allocations, nextId)
    ensures var r := AutoAllocation(budgets, ps, instances, allocations, nextId, userId, budgetId);
      (r == Err(NotFound("Budget")) <==> OwnedBudget(budgets, budgetId, userId).None?)
      && (r == Err(BadRequest("No active paychecks found")) <==>
            OwnedBudget(budgets, budgetId, userId).Some?
            && forall p :: p in ps ==> !(p.userId == userId && p.isActive))
    ensures var r := AutoAllocation(budgets, ps, instances, allocations, nextId, userId, budgetId);
      r.Ok? ==>
        var l := r.value;
        var b := OwnedBudget(budgets, budgetId, userId).value;
        var active := Filter(ps, ActiveOf(userId));
        l.instances == instances + l.created
        && IdsBelow(l.instances, l.allocations, l.nextId)
        && (forall c :: c in l.created ==> CreatedFrom(c, active, budgetId, b.year, b.month) && nextId <= c.id)
        && (forall c :: c in l.created ==>
              Filter(l.allocations, OfInstance(c.id)) == Copies(Templates(allocations, c.paycheckId), c.paycheckId, c.id))
        && (forall q :: Templates(l.allocations, q) == Templates(allocations, q))
        && (NoDuplicateInstances(instances) ==> NoDuplicateInstances(l.instances))
        && (forall p, d :: p in active && d in MonthDates(p, b.year, b.month) ==>
              HasInstance(l.instances, p.id, budgetId, d))
  {
    var o := OwnedBudget(budgets, budgetId, userId);
    if o.Some? {
      var active := Filter(ps, ActiveOf(userId));
      if active == [] {
        forall p | p in ps ensures !(p.userId == userId && p.isActive) {
          if p.userId == userId && p.isActive {
            FilterKeeps(ps, ActiveOf(userId), p);
          }
        }
      } else {
        var x := active[0];
        assert x in active;
        var l0 := Ledger(instances, allocations, nextId, []);
        SoundStart(l0, active, budgetId, o.value.year, o.value.month);
        CreateForPaychecksSound(l0, l0, active, active, budgetId, o.value.year, o.value.month);
      }
    }
  }

  /** One date: skip it when its instance exists, otherwise add the
      instance and copy the paycheck's templates onto it. */
  method CreateInstanceStep(db: PaycheckDb, p: Paycheck, budgetId: int, d: Date, created0: seq<Instance>)
    returns (created: seq<Instance>)
    modifies db
    ensures Ledger(db.instances, db.allocations, db.nextId, created)
            == CreateInstance(Ledger(old(db.instances), old(db.allocations), old(db.nextId), created0), p, budgetId, d)
    ensures db.paychecks == old(db.paychecks)
  {
    if HasInstance(db.instances, p.id, budgetId, d) {
      return created0;
    }
    var inst := Instance(db.nextId, p.id, budgetId, p.amountCents, d, false);
    db.instances := db.instances + [inst];
    db.nextId := db.nextId + 1;
    var templates := Templates(db.allocations, p.id);
    AddAllocationRows(db, AsInputs(templates), p.id, Some(inst.id));
    created := created0 + [inst];
  }

  /** The loop over the paycheck's dates of the month. */
  method CreateForDatesLoop(db: PaycheckDb, p: Paycheck, budgetId: int, dates: seq<Date>, created0: seq<Instance>)
    returns (created: seq<Instance>)
    modifies db
    ensures Ledger(db.instances, db.allocations, db.nextId, created)
            == CreateForDates(Ledger(old(db.instances), old(db.allocations), old(db.nextId), created0), p, budgetId, dates)
    ensures db.paychecks == old(db.paychecks)
  {
    ghost var l0 := Ledger(db.instances, db.allocations, db.nextId, created0);
    created := created0;
    for k := 0 to |dates|
      invariant Ledger(db.instances, db.allocations, db.nextId, created) == CreateForDates(l0, p, budgetId, dates[..k])
      invariant db.paychecks == old(db.paychecks)
    {
      assert dates[..k + 1][..k] == dates[..k];
      created := CreateInstanceStep(db, p, budgetId, dates[k], created);
    }
    assert dates[..|dates|] == dates;
  }

  /** auto_allocate_paychecks */
  method AutoAllocate(db: PaycheckDb, budgets: seq<Budget>, userId: int, budgetId: int)
    returns (r: Result<seq<Instance>>)
    requires db.Valid()
    modifies db
    ensures db.Valid()
    ensures db.paychecks == old(db.paychecks)
    ensures var res := AutoAllocation(budgets, old(db.paychecks), old(db.instances), old(db.allocations),
                                      old(db.nextId), userId, budgetId);
      match res
      case Err(e) =>
        r == Err(e) && db.instances == old(db.instances) && db.allocations == old(db.allocations)
        && db.nextId == old(db.nextId)
      case Ok(l) =>
        r == Ok(l.created) && db.instances == l.instances && db.allocations == l.allocations && db.nextId == l.nextId
  {
    var b := OwnedBudget(budgets, budgetId, userId);
    if b.None? {
      return Err(NotFound("Budget"));
    }
    var active := Filter(db.paychecks, ActiveOf(userId));
    if active == [] {
      return Err(BadRequest("No active paychecks found"));
    }
    var y, m := b.value.year, b.value.month;
    ghost var l0 := Ledger(db.instances, db.allocations, db.nextId, []);
    var created: seq<Instance> := [];
    for j := 0 to |active|
      invariant DatesValid(active[..j])
      invariant Ledger(db.instances, db.allocations, db.nextId, created) == CreateForPaychecks(l0, active[..j], budgetId, y, m)
      invariant db.paychecks == old(db.paychecks)
    {
      var p := active[j];
      assert p in active;
      var upcoming := GenerateUpcomingDates(p.nextDate, p.frequency, 12);
      var monthDates := Filter(upcoming, InMonth(y, m));
      assert active[..j + 1][..j] == active[..j];
      created := CreateForDatesLoop(db, p, budgetId, monthDates, created);
    }
    assert active[..|active|] == active;
    AutoAllocationSound(budgets, old(db.paychecks), old(db.instances), old(db.allocations), old(db.nextId),
                        userId, budgetId);
    return Ok(created);
  }
}
