/** The financial goals API: goals a user saves towards, contributions that
    raise the saved amount, milestones on the way, a summary over all of a
    user's goals and a projection of when a goal will be reached. Amounts
    are kept in cents; a goal that is active and has reached its target is
    completed by the update or contribution that gets it there. */
module FinancialGoals {
  import opened Common
  import opened Calendar
  import opened Sorting

  const Active := "active"
  const Completed := "completed"

  /** A row of financial_goals. The status and type are the stored strings;
      the times are the clock values written at creation and update. */
  datatype Goal = Goal(
    id: int, userId: int, name: string, description: Option<string>, goalType: string,
    targetCents: int, currentCents: int, monthlyCents: int, targetDate: Date, startDate: Date,
    status: string, priority: int, notes: Option<string>, createdAt: int, updatedAt: int)

  /** A row of goal_contributions. */
  datatype Contribution = Contribution(
    id: int, goalId: int, amountCents: int, contributionDate: Date, notes: Option<string>, createdAt: int)

  /** A row of goal_milestones; `achieved` is the stored integer, 0 or 1. */
  datatype Milestone = Milestone(
    id: int, goalId: int, name: string, targetCents: int, targetDate: Date,
    achieved: int, achievedDate: Option<Date>, createdAt: int)

  /** Exact dollars of a cent amount. */
  function Dollars(cents: int): (r: real)
    ensures r * 100.0 == cents as real
  {
    cents as real / 100.0
  }

  /** The position of the user's goal with that id. */
  function GoalIndex(goals: seq<Goal>, goalId: int, userId: int): (r: Option<nat>)
    ensures r.Some? ==> r.value < |goals| && goals[r.value].id == goalId && goals[r.value].userId == userId
    ensures r.Some? ==> forall i :: 0 <= i < r.value ==> !(goals[i].id == goalId && goals[i].userId == userId)
    ensures r.None? ==> forall i :: 0 <= i < |goals| ==> !(goals[i].id == goalId && goals[i].userId == userId)
  {
    if goals == [] then None
    else if goals[0].id == goalId && goals[0].userId == userId then Some(0)
    else match GoalIndex(goals[1..], goalId, userId)
         case None => None
         case Some(i) => Some(i + 1)
  }

  /** get_goal */
  function GetGoal(goals: seq<Goal>, userId: int, goalId: int): (r: Result<Goal>)
    ensures r.Ok? ==> r.value in goals && r.value.id == goalId && r.value.userId == userId
    ensures r.Err? ==> r == Err(NotFound("Goal")) && forall g :: g in goals ==> !(g.id == goalId && g.userId == userId)
  {
    match GoalIndex(goals, goalId, userId)
    case None => Err(NotFound("Goal"))
    case Some(i) => Ok(goals[i])
  }

  // ---------------------------------------------------------------------
  // Completion

  /** The check after an update or a contribution: an active goal whose
      saved amount has reached the target becomes completed. */
  function AutoCompleted(g: Goal): (r: Goal)
    ensures r.status != g.status ==> g.status == Active && r.status == Completed
    ensures !(r.status == Active && r.currentCents >= r.targetCents)
    ensures r == g.(status := r.status)
  {
    if g.currentCents >= g.targetCents && g.status == Active then g.(status := Completed) else g
  }

  /** The goal after a contribution of `amountCents` at time `now`. */
  function Contributed(g: Goal, amountCents: int, now: int): (r: Goal)
    ensures r.currentCents == g.currentCents + amountCents && r.updatedAt == now
    ensures r.id == g.id && r.userId == g.userId && r.targetCents == g.targetCents
  {
    AutoCompleted(g.(currentCents := g.currentCents + amountCents, updatedAt := now))
  }

  /** Contributions add up: two contributions, the second not negative,
      leave the goal as one contribution of their sum, and an active goal
      is completed exactly when the sum reaches what was missing. */
  lemma ContributionsAddUp(g: Goal, a: int, b: int, t1: int, t2: int)
    requires b >= 0
    ensures Contributed(Contributed(g, a, t1), b, t2) == Contributed(g, a + b, t2)
    ensures g.status == Active ==>
      (Contributed(g, a + b, t2).status == Completed <==> g.currentCents + a + b >= g.targetCents)
  {
    var once := Contributed(g, a, t1);
    if once.status != g.status {
      assert once.currentCents >= once.targetCents;
    }
  }

  // ---------------------------------------------------------------------
  // Projection

  /** `int(a / b)` for b > 0: the quotient truncated toward zero. */
  function TruncDiv(a: int, b: int): (q: int)
    requires b > 0
    ensures a >= 0 ==> q >= 0 && b * q <= a < b * q + b
    ensures a < 0 ==> q <= 0 && b * q - b < a <= b * q
  {
    if a >= 0 then
      DivBounds(a, b);
      a / b
    else
      var n := -a;
      DivBounds(n, b);
      assert b * -(n / b) == -(b * (n / b));
      -(n / b)
  }

  /** Euclidean division of a natural number by a positive one. */
  lemma DivBounds(n: int, b: int)
    requires n >= 0 && b > 0
    ensures n / b >= 0 && b * (n / b) <= n < b * (n / b) + b
  {
    assert n == b * (n / b) + n % b;
  }

  /** One more than the truncated quotient always passes the dividend. */
  lemma TruncDivPassed(a: int, b: int)
    requires b > 0
    ensures b * (TruncDiv(a, b) + 1) > a
  {
    var q := TruncDiv(a, b);
    assert b * (q + 1) == b * q + b;
  }

  /** Whole months from today's month to the target's month. */
  function MonthsToTarget(target: Date, today: Date): int
  {
    (target.year - today.year) * 12 + (target.month - today.month)
  }

  /** The projection returned for a goal; amounts in dollars before rounding. */
  datatype Projection = Projection(
    goalId: int, projectedDate: Date, monthsRemaining: int, onTrack: bool,
    requiredMonthly: real, projectedFinal: real, shortfall: real)

  /** The months a projection counts: 999 without a monthly contribution,
      otherwise one more than the truncated quotient of what is missing by
      the monthly amount. */
  function ProjectedMonths(g: Goal): int
  {
    if Dollars(g.monthlyCents) <= 0.0 then 999 else TruncDiv(g.targetCents - g.currentCents, g.monthlyCents) + 1
  }

  function MonthlyTimes(monthly: real, months: int): real
  {
    monthly * months as real
  }

  /** calculate_projection, with today's date as a parameter. With a
      positive monthly amount the completion date is today moved by the
      projected months, and `relativedelta` raises ValueError when that
      date falls outside the years a Python date holds (a small monthly
      amount against a large target is enough). */
  function CalculateProjection(g: Goal, today: Date): (r: Result<Projection>)
    requires ValidDate(today)
    ensures r.Err? <==> g.monthlyCents > 0 && !InPythonRange(AddMonths(today, ProjectedMonths(g)))
    ensures r.Err? ==> r.error == Raised("ValueError")
    ensures r.Ok? ==> r.value.goalId == g.id && r.value.shortfall >= 0.0
    ensures r.Ok? && g.monthlyCents > 0 ==> InPythonRange(r.value.projectedDate)
  {
    var target := Dollars(g.targetCents);
    var current := Dollars(g.currentCents);
    var monthly := Dollars(g.monthlyCents);
    var remaining := target - current;
    var months := ProjectedMonths(g);
    if monthly > 0.0 && !InPythonRange(AddMonths(today, months)) then Err(Raised("ValueError"))
    else
      var date := if monthly <= 0.0 then g.targetDate else AddMonths(today, months);
      var toTarget := MonthsToTarget(g.targetDate, today);
      var required := if monthly <= 0.0 || toTarget <= 0 then remaining else remaining / toTarget as real;
      var onTrack := if monthly <= 0.0 then false else if toTarget <= 0 then current >= target else monthly >= required;
      var projectedFinal := current + MonthlyTimes(monthly, months);
      var shortfall := if 0.0 >= target - projectedFinal then 0.0 else target - projectedFinal;
      Ok(Projection(g.id, date, months, onTrack, required, projectedFinal, shortfall))
  }

  /** A goal of $100,000 with nothing saved and $1 a month is 100,001
      months away, past year 9999, so its projection raises. */
  lemma ProjectionPastYear9999(g: Goal)
    requires g.targetCents == 10000000 && g.currentCents == 0 && g.monthlyCents == 100
    ensures ProjectedMonths(g) == 100001
    ensures AddMonths(Date(2024, 1, 15), 100001).year == 10357
    ensures CalculateProjection(g, Date(2024, 1, 15)) == Err(Raised("ValueError"))
  {
    assert TruncDiv(10000000, 100) == 100000;
  }

  /** x ≥ y / k is x · k ≥ y for a positive k. */
  lemma DividedAtMost(x: real, y: real, k: real)
    requires k > 0.0
    ensures x >= y / k <==> x * k >= y
  {
    assert (y / k) * k == y;
    if x >= y / k {
      assert x * k >= (y / k) * k;
    } else {
      assert x * k < (y / k) * k;
    }
  }

  /** The projected final amount is the saved amount plus the monthly
      amount over the projected months, and the shortfall is the part of
      the target it misses, zero exactly when the target is reached. */
  lemma ProjectionShortfall(g: Goal, today: Date)
    requires ValidDate(today)
    ensures var r := CalculateProjection(g, today);
      r.Ok? ==>
      var p := r.value;
      p.projectedFinal == Dollars(g.currentCents + g.monthlyCents * p.monthsRemaining)
      && (p.shortfall == 0.0 <==> p.projectedFinal >= Dollars(g.targetCents))
      && (p.shortfall > 0.0 ==> p.shortfall == Dollars(g.targetCents) - p.projectedFinal)
  {
    var r := CalculateProjection(g, today);
    if r.Ok? {
      var p := r.value;
      FinalInCents(g.currentCents, g.monthlyCents, p.monthsRemaining, g.targetCents, p.projectedFinal, p.shortfall);
    }
  }

  /** The final amount and shortfall of a projection, from dollars to cents. */
  lemma FinalInCents(current: int, monthly: int, n: int, target: int, final: real, shortfall: real)
    requires final == Dollars(current) + MonthlyTimes(Dollars(monthly), n)
    requires shortfall == if 0.0 >= Dollars(target) - final then 0.0 else Dollars(target) - final
    ensures final == Dollars(current + monthly * n)
    ensures shortfall == 0.0 <==> final >= Dollars(target)
    ensures shortfall > 0.0 ==> shortfall == Dollars(target) - final
  {
  }

  /** Without a monthly contribution the goal is 999 months away, off
      track, projected for its target date, and the whole remainder is
      required. */
  lemma ProjectionWithoutContribution(g: Goal, today: Date)
    requires ValidDate(today) && g.monthlyCents <= 0
    ensures CalculateProjection(g, today).Ok?
    ensures var p := CalculateProjection(g, today).value;
      p.monthsRemaining == 999 && !p.onTrack && p.projectedDate == g.targetDate
      && p.requiredMonthly == Dollars(g.targetCents - g.currentCents)
  {
  }

  /** With a monthly contribution the projection raises exactly when the
      completion date leaves the years a Python date holds; otherwise the
      month count is the truncated quotient plus one, so the projected
      final amount passes the target and there is never a shortfall; a
      goal still short of its target is at least a month away. */
  lemma ProjectionWithContribution(g: Goal, today: Date)
    requires ValidDate(today) && g.monthlyCents > 0
    ensures var r := CalculateProjection(g, today);
      var months := TruncDiv(g.targetCents - g.currentCents, g.monthlyCents) + 1;
      (r.Ok? <==> InPythonRange(AddMonths(today, months)))
      && (r.Ok? ==>
        r.value.monthsRemaining == months
        && r.value.projectedDate == AddMonths(today, months)
        && r.value.projectedFinal > Dollars(g.targetCents) && r.value.shortfall == 0.0
        && (g.currentCents < g.targetCents ==> months >= 1))
  {
    var r := CalculateProjection(g, today);
    if r.Ok? {
      var p := r.value;
      TruncDivPassed(g.targetCents - g.currentCents, g.monthlyCents);
      assert g.currentCents + g.monthlyCents * p.monthsRemaining > g.targetCents;
      ProjectionShortfall(g, today);
    }
  }

  /** With a monthly contribution and the target month already reached,
      the goal is on track exactly when it is fully saved; before that,
      exactly when the monthly amount times the months left covers the
      remainder. */
  lemma ProjectionOnTrack(g: Goal, today: Date)
    requires ValidDate(today) && g.monthlyCents > 0
    ensures var r := CalculateProjection(g, today);
      var k := MonthsToTarget(g.targetDate, today);
      r.Ok? ==>
      (k <= 0 ==> (r.value.onTrack <==> g.currentCents >= g.targetCents))
      && (k > 0 ==> (r.value.onTrack <==> g.monthlyCents * k >= g.targetCents - g.currentCents))
  {
    var k := MonthsToTarget(g.targetDate, today);
    var r := CalculateProjection(g, today);
    if r.Ok? {
      var p := r.value;
      var m, target, current := Dollars(g.monthlyCents), Dollars(g.targetCents), Dollars(g.currentCents);
      assert m > 0.0;
      if k > 0 {
        assert p.onTrack == (m >= (target - current) / k as real);
        CoversInCents(g.monthlyCents, g.targetCents, g.currentCents, k);
      } else {
        assert p.onTrack == (current >= target);
      }
    }
  }

  /** The monthly amount covers the remainder spread over k months exactly
      when k monthly payments in cents cover it. */
  lemma CoversInCents(monthly: int, target: int, current: int, k: int)
    requires k > 0
    ensures Dollars(monthly) >= (Dollars(target) - Dollars(current)) / k as real <==> monthly * k >= target - current
  {
    DividedAtMost(Dollars(monthly), Dollars(target) - Dollars(current), k as real);
    assert Dollars(monthly) * k as real == Dollars(monthly * k);
    assert Dollars(target) - Dollars(current) == Dollars(target - current);
  }

  // ---------------------------------------------------------------------
  // Listing and summary

  /** The list filter; an empty status is no filter, as Python's `if`
      reads it. */
  predicate GoalListed(g: Goal, userId: int, status: Option<string>)
  {
    g.userId == userId && (status.None? || status.value == "" || g.status == status.value)
  }

  function GoalListedOf(userId: int, status: Option<string>): Goal -> bool
  {
    (g: Goal) => GoalListed(g, userId, status)
  }

  /** ORDER BY priority, target_date. */
  function ByPriorityDate(): (Goal, Goal) -> bool
  {
    (a: Goal, b: Goal) => a.priority < b.priority || (a.priority == b.priority && DateLe(a.targetDate, b.targetDate))
  }

  lemma ByPriorityDateIsPreorder()
    ensures TotalPreorder(ByPriorityDate())
  {
  }

  /** get_goals */
  function ListGoals(goals: seq<Goal>, userId: int, status: Option<string>): (r: seq<Goal>)
    ensures |r| == |Filter(goals, GoalListedOf(userId, status))|
  {
    SortByPermutes(Filter(goals, GoalListedOf(userId, status)), ByPriorityDate());
    SortBy(Filter(goals, GoalListedOf(userId, status)), ByPriorityDate())
  }

  /** The list holds exactly the user's goals that pass the status filter,
      each once, in priority then target-date order. */
  lemma ListGoalsSound(goals: seq<Goal>, userId: int, status: Option<string>)
    ensures multiset(ListGoals(goals, userId, status)) == multiset(Filter(goals, GoalListedOf(userId, status)))
    ensures forall g :: g in ListGoals(goals, userId, status) <==> g in goals && GoalListed(g, userId, status)
    ensures SortedBy(ListGoals(goals, userId, status), ByPriorityDate())
  {
    var matching := Filter(goals, GoalListedOf(userId, status));
    SortByPermutes(matching, ByPriorityDate());
    ByPriorityDateIsPreorder();
    SortBySorted(matching, ByPriorityDate());
    forall g ensures g in ListGoals(goals, userId, status) <==> g in goals && GoalListed(g, userId, status) {
      if g in goals && GoalListed(g, userId, status) {
        FilterKeeps(goals, GoalListedOf(userId, status), g);
      }
      assert g in ListGoals(goals, userId, status) <==> g in multiset(matching);
    }
  }

  datatype Summary = Summary(
    totalGoals: nat, activeGoals: nat, completedGoals: nat, totalTarget: real, totalCurrent: real,
    totalMonthly: real, progressPercentage: real)

  function OwnedBy(userId: int): Goal -> bool { (g: Goal) => g.userId == userId }
  function IsActive(): Goal -> bool { (g: Goal) => g.status == Active }
  function IsCompleted(): Goal -> bool { (g: Goal) => g.status == Completed }
  function TargetOf(): Goal -> int { (g: Goal) => g.targetCents }
  function CurrentOf(): Goal -> int { (g: Goal) => g.currentCents }
  function MonthlyOf(): Goal -> int { (g: Goal) => g.monthlyCents }

  /** get_goals_summary, with the dollar sums taken exactly. */
  function Summarize(goals: seq<Goal>, userId: int): (r: Summary)
    ensures r.totalGoals == CountOf(goals, OwnedBy(userId))
    ensures r.totalTarget <= 0.0 ==> r.progressPercentage == 0.0
  {
    var own := Filter(goals, OwnedBy(userId));
    FilterLength(goals, OwnedBy(userId));
    var target := Dollars(SumOf(own, TargetOf()));
    var current := Dollars(SumOf(own, CurrentOf()));
    Summary(|own|, CountOf(own, IsActive()), CountOf(own, IsCompleted()), target, current,
            Dollars(SumOf(Filter(own, IsActive()), MonthlyOf())),
            if target > 0.0 then current / target * 100.0 else 0.0)
  }

  /** No goal is both active and completed, so the two counts never exceed
      the total. */
  lemma {:induction false} ActiveAndCompletedAtMost(s: seq<Goal>)
    ensures CountOf(s, IsActive()) + CountOf(s, IsCompleted()) <= |s|
  {
    if s != [] {
      ActiveAndCompletedAtMost(s[..|s| - 1]);
    }
  }

  /** Another goal of the user moves the totals by its own amounts and the
      counts by its own status; its monthly amount counts only when it is
      active. */
  lemma SummaryAddGoal(goals: seq<Goal>, userId: int, g: Goal)
    requires g.userId == userId
    ensures var before := Summarize(goals, userId);
      var after := Summarize(goals + [g], userId);
      after.totalGoals == before.totalGoals + 1
      && after.activeGoals == before.activeGoals + (if g.status == Active then 1 else 0)
      && after.completedGoals == before.completedGoals + (if g.status == Completed then 1 else 0)
      && after.totalTarget == before.totalTarget + Dollars(g.targetCents)
      && after.totalCurrent == before.totalCurrent + Dollars(g.currentCents)
      && after.totalMonthly == before.totalMonthly + (if g.status == Active then Dollars(g.monthlyCents) else 0.0)
  {
    var own := Filter(goals, OwnedBy(userId));
    assert (goals + [g])[..|goals|] == goals;
    assert Filter(goals + [g], OwnedBy(userId)) == own + [g];
    assert (own + [g])[..|own|] == own;
    SumOfSnoc(own, g, TargetOf());
    SumOfSnoc(own, g, CurrentOf());
    var act := Filter(own, IsActive());
    assert Filter(own + [g], IsActive()) == act + (if g.status == Active then [g] else []);
    if g.status == Active {
      SumOfSnoc(act, g, MonthlyOf());
    } else {
      assert act + [] == act;
    }
  }

  /** Goals of other users change nothing in the summary. */
  lemma SummaryOtherUser(goals: seq<Goal>, userId: int, g: Goal)
    requires g.userId != userId
    ensures Summarize(goals + [g], userId) == Summarize(goals, userId)
  {
    assert (goals + [g])[..|goals|] == goals;
    assert Filter(goals + [g], OwnedBy(userId)) == Filter(goals, OwnedBy(userId));
  }

  /** The active and completed counts never add up to more than the total. */
  lemma SummaryCountsBounded(goals: seq<Goal>, userId: int)
    ensures Summarize(goals, userId).activeGoals + Summarize(goals, userId).completedGoals
            <= Summarize(goals, userId).totalGoals
  {
    ActiveAndCompletedAtMost(Filter(goals, OwnedBy(userId)));
  }

  // ---------------------------------------------------------------------
  // Updating a goal

  /** The fields of an update request that are set; the description and
      notes may also be set to null: Some(None). Amounts are cents. */
  datatype GoalUpdate = GoalUpdate(
    name: Option<string>, description: Option<Option<string>>, goalType: Option<string>,
    targetCents: Option<int>, currentCents: Option<int>, monthlyCents: Option<int>,
    targetDate: Option<Date>, status: Option<string>, priority: Option<int>, notes: Option<Option<string>>)

  /** One entry of to_cents_dict, each assigned with setattr. */
  datatype GoalField =
    | SetName(name: string) | SetDescription(description: Option<string>) | SetType(goalType: string)
    | SetTargetDate(date: Date) | SetStatus(status: string) | SetPriority(priority: int)
    | SetNotes(notes: Option<string>) | SetTarget(cents: int) | SetCurrent(cents: int) | SetMonthly(cents: int)

  /** setattr of one field. */
  function SetGoalField(g: Goal, v: GoalField): Goal
  {
    match v
    case SetName(x) => Goal(g.id, g.userId, x, g.description, g.goalType, g.targetCents, g.currentCents,
                            g.monthlyCents, g.targetDate, g.startDate, g.status, g.priority, g.notes,
                            g.createdAt, g.updatedAt)
    case SetDescription(x) => Goal(g.id, g.userId, g.name, x, g.goalType, g.targetCents, g.currentCents,
                                   g.monthlyCents, g.targetDate, g.startDate, g.status, g.priority, g.notes,
                                   g.createdAt, g.updatedAt)
    case SetType(x) => Goal(g.id, g.userId, g.name, g.description, x, g.targetCents, g.currentCents,
                            g.monthlyCents, g.targetDate, g.startDate, g.status, g.priority, g.notes,
                            g.createdAt, g.updatedAt)
    case SetTargetDate(x) => Goal(g.id, g.userId, g.name, g.description, g.goalType, g.targetCents, g.currentCents,
                                  g.monthlyCents, x, g.startDate, g.status, g.priority, g.notes,
                                  g.createdAt, g.updatedAt)
    case SetStatus(x) => Goal(g.id, g.userId, g.name, g.description, g.goalType, g.targetCents, g.currentCents,
                              g.monthlyCents, g.targetDate, g.startDate, x, g.priority, g.notes,
                              g.createdAt, g.updatedAt)
    case SetPriority(x) => Goal(g.id, g.userId, g.name, g.description, g.goalType, g.targetCents, g.currentCents,
                                g.monthlyCents, g.targetDate, g.startDate, g.status, x, g.notes,
                                g.createdAt, g.updatedAt)
    case SetNotes(x) => Goal(g.id, g.userId, g.name, g.description, g.goalType, g.targetCents, g.currentCents,
                             g.monthlyCents, g.targetDate, g.startDate, g.status, g.priority, x,
                             g.createdAt, g.updatedAt)
    case SetTarget(x) => Goal(g.id, g.userId, g.name, g.description, g.goalType, x, g.currentCents,
                              g.monthlyCents, g.targetDate, g.startDate, g.status, g.priority, g.notes,
                              g.createdAt, g.updatedAt)
    case SetCurrent(x) => Goal(g.id, g.userId, g.name, g.description, g.goalType, g.targetCents, x,
                               g.monthlyCents, g.targetDate, g.startDate, g.status, g.priority, g.notes,
                               g.createdAt, g.updatedAt)
    case SetMonthly(x) => Goal(g.id, g.userId, g.name, g.description, g.goalType, g.targetCents, g.currentCents,
                               x, g.targetDate, g.startDate, g.status, g.priority, g.notes,
                               g.createdAt, g.updatedAt)
  }

  /** The entry of field k when the request sets it, in the order of
      to_cents_dict: the declared fields, then the three cent amounts,
      which it pops and appends at the end. */
  function GoalFieldEntry(u: GoalUpdate, k: nat): (r: seq<GoalField>)
    ensures |r| <= 1
  {
    if k == 0 then (if u.name.Some? then [SetName(u.name.value)] else [])
    else if k == 1 then (if u.description.Some? then [SetDescription(u.description.value)] else [])
    else if k == 2 then (if u.goalType.Some? then [SetType(u.goalType.value)] else [])
    else if k == 3 then (if u.targetDate.Some? then [SetTargetDate(u.targetDate.value)] else [])
    else if k == 4 then (if u.status.Some? then [SetStatus(u.status.value)] else [])
    else if k == 5 then (if u.priority.Some? then [SetPriority(u.priority.value)] else [])
    else if k == 6 then (if u.notes.Some? then [SetNotes(u.notes.value)] else [])
    else if k == 7 then (if u.targetCents.Some? then [SetTarget(u.targetCents.value)] else [])
    else if k == 8 then (if u.currentCents.Some? then [SetCurrent(u.currentCents.value)] else [])
    else if k == 9 then (if u.monthlyCents.Some? then [SetMonthly(u.monthlyCents.value)] else [])
    else []
  }

  function GoalDumpUpTo(u: GoalUpdate, k: nat): (r: seq<GoalField>)
    ensures |r| <= k
  {
    if k == 0 then [] else GoalDumpUpTo(u, k - 1) + GoalFieldEntry(u, k - 1)
  }

  /** to_cents_dict: the set fields. */
  function GoalFields(u: GoalUpdate): (r: seq<GoalField>)
    ensures |r| <= 10
  {
    GoalDumpUpTo(u, 10)
  }

  /** The setattr loop as a fold. */
  function ApplyGoalFields(g: Goal, vs: seq<GoalField>): Goal
  {
    if vs == [] then g else SetGoalField(ApplyGoalFields(g, vs[..|vs| - 1]), vs[|vs| - 1])
  }

  /** The goal once the first k entries of the request are applied. */
  function GoalUpdatedUpTo(g: Goal, u: GoalUpdate, k: nat): Goal
  {
    Goal(g.id, g.userId,
         if k > 0 && u.name.Some? then u.name.value else g.name,
         if k > 1 && u.description.Some? then u.description.value else g.description,
         if k > 2 && u.goalType.Some? then u.goalType.value else g.goalType,
         if k > 7 && u.targetCents.Some? then u.targetCents.value else g.targetCents,
         if k > 8 && u.currentCents.Some? then u.currentCents.value else g.currentCents,
         if k > 9 && u.monthlyCents.Some? then u.monthlyCents.value else g.monthlyCents,
         if k > 3 && u.targetDate.Some? then u.targetDate.value else g.targetDate,
         g.startDate,
         if k > 4 && u.status.Some? then u.status.value else g.status,
         if k > 5 && u.priority.Some? then u.priority.value else g.priority,
         if k > 6 && u.notes.Some? then u.notes.value else g.notes,
         g.createdAt, g.updatedAt)
  }

  /** The goal with every set field replaced and every other one kept. */
  function UpdatedGoal(g: Goal, u: GoalUpdate): Goal
  {
    GoalUpdatedUpTo(g, u, 10)
  }

  lemma {:induction false} ApplyGoalFieldsAppend(g: Goal, vs: seq<GoalField>, ws: seq<GoalField>)
    ensures ApplyGoalFields(g, vs + ws) == ApplyGoalFields(ApplyGoalFields(g, vs), ws)
  {
    if ws != [] {
      var m := |ws| - 1;
      assert (vs + ws)[..|vs + ws| - 1] == vs + ws[..m];
      assert (vs + ws)[|vs + ws| - 1] == ws[m];
      ApplyGoalFieldsAppend(g, vs, ws[..m]);
    } else {
      assert vs + ws == vs;
    }
  }

  lemma ApplyOneGoalField(g: Goal, vs: seq<GoalField>)
    requires |vs| <= 1
    ensures vs == [] ==> ApplyGoalFields(g, vs) == g
    ensures vs != [] ==> ApplyGoalFields(g, vs) == SetGoalField(g, vs[0])
  {
    if vs != [] {
      assert vs[..0] == [];
    }
  }

  lemma {:induction false} ApplyGoalUpTo(g: Goal, u: GoalUpdate, k: nat)
    requires k <= 10
    ensures ApplyGoalFields(g, GoalDumpUpTo(u, k)) == GoalUpdatedUpTo(g, u, k)
  {
    if k > 0 {
      ApplyGoalUpTo(g, u, k - 1);
      ApplyOneGoalField(ApplyGoalFields(g, GoalDumpUpTo(u, k - 1)), GoalFieldEntry(u, k - 1));
      ApplyGoalFieldsAppend(g, GoalDumpUpTo(u, k - 1), GoalFieldEntry(u, k - 1));
      GoalUpdateStep(g, u, k);
    }
  }

  /** Entry k - 1 takes the goal from k - 1 applied entries to k. */
  lemma GoalUpdateStep(g: Goal, u: GoalUpdate, k: nat)
    requires 1 <= k <= 10
    ensures ApplyGoalFields(GoalUpdatedUpTo(g, u, k - 1), GoalFieldEntry(u, k - 1)) == GoalUpdatedUpTo(g, u, k)
  {
    var e := GoalFieldEntry(u, k - 1);
    ApplyOneGoalField(GoalUpdatedUpTo(g, u, k - 1), e);
    if k == 1 {} else if k == 2 {} else if k == 3 {} else if k == 4 {} else if k == 5 {}
    else if k == 6 {} else if k == 7 {} else if k == 8 {} else if k == 9 {} else {}
  }

  /** Setting the entries of to_cents_dict one by one changes exactly the
      fields the request set; the id, owner, start date and times are
      untouched, and an empty request changes nothing. */
  lemma GoalUpdateSetsOnlyGivenFields(g: Goal, u: GoalUpdate)
    ensures ApplyGoalFields(g, GoalFields(u)) == UpdatedGoal(g, u)
    ensures var n := UpdatedGoal(g, u);
      n.id == g.id && n.userId == g.userId && n.startDate == g.startDate && n.createdAt == g.createdAt
      && n.updatedAt == g.updatedAt
      && (u.currentCents.Some? ==> n.currentCents == u.currentCents.value)
      && (u.currentCents.None? ==> n.currentCents == g.currentCents)
      && (u.status.Some? ==> n.status == u.status.value)
      && (u.status.None? ==> n.status == g.status)
    ensures u == GoalUpdate(None, None, None, None, None, None, None, None, None, None) ==> UpdatedGoal(g, u) == g
  {
    ApplyGoalUpTo(g, u, 10);
  }

  // ---------------------------------------------------------------------
  // Milestones

  datatype MilestoneCreate = MilestoneCreate(name: string, targetCents: int, targetDate: Date)

  /** The fields of a milestone update that are set. */
  datatype MilestoneUpdate = MilestoneUpdate(
    name: Option<string>, targetCents: Option<int>, targetDate: Option<Date>, achieved: Option<bool>)

  datatype MilestoneField =
    | SetMilestoneName(name: string) | SetMilestoneTarget(cents: int) | SetMilestoneDate(date: Date)
    | SetAchieved(achieved: bool)

  /** One step of the update loop: `achieved` also sets or clears the
      achieved date; every other field goes through setattr. */
  function SetMilestoneField(m: Milestone, v: MilestoneField, today: Date): Milestone
  {
    match v
    case SetMilestoneName(x) =>
      Milestone(m.id, m.goalId, x, m.targetCents, m.targetDate, m.achieved, m.achievedDate, m.createdAt)
    case SetMilestoneTarget(x) =>
      Milestone(m.id, m.goalId, m.name, x, m.targetDate, m.achieved, m.achievedDate, m.createdAt)
    case SetMilestoneDate(x) =>
      Milestone(m.id, m.goalId, m.name, m.targetCents, x, m.achieved, m.achievedDate, m.createdAt)
    case SetAchieved(x) =>
      if x then Milestone(m.id, m.goalId, m.name, m.targetCents, m.targetDate, 1, Some(today), m.createdAt)
      else Milestone(m.id, m.goalId, m.name, m.targetCents, m.targetDate, 0, None, m.createdAt)
  }

  /** model_dump(exclude_unset=True) of a milestone update, in field order. */
  function MilestoneFields(u: MilestoneUpdate): (r: seq<MilestoneField>)
    ensures |r| <= 4
  {
    NameField(u) + TargetField(u) + DateField(u) + AchievedField(u)
  }

  function NameField(u: MilestoneUpdate): seq<MilestoneField>
  {
    if u.name.Some? then [SetMilestoneName(u.name.value)] else []
  }

  function TargetField(u: MilestoneUpdate): seq<MilestoneField>
  {
    if u.targetCents.Some? then [SetMilestoneTarget(u.targetCents.value)] else []
  }

  function DateField(u: MilestoneUpdate): seq<MilestoneField>
  {
    if u.targetDate.Some? then [SetMilestoneDate(u.targetDate.value)] else []
  }

  function AchievedField(u: MilestoneUpdate): seq<MilestoneField>
  {
    if u.achieved.Some? then [SetAchieved(u.achieved.value)] else []
  }

  function ApplyMilestoneFields(m: Milestone, vs: seq<MilestoneField>, today: Date): Milestone
  {
    if vs == [] then m else SetMilestoneField(ApplyMilestoneFields(m, vs[..|vs| - 1], today), vs[|vs| - 1], today)
  }

  /** A milestone's achieved flag is 0 or 1, and it has an achieved date
      exactly when the flag is 1. */
  predicate AchievedRecorded(m: Milestone)
  {
    (m.achieved == 0 || m.achieved == 1) && (m.achieved == 1 <==> m.achievedDate.Some?)
  }

  /** The milestone with every set field replaced: `achieved` true records
      today as the achieved date and false clears it. */
  function UpdatedMilestone(m: Milestone, u: MilestoneUpdate, today: Date): Milestone
  {
    Milestone(m.id, m.goalId,
              if u.name.Some? then u.name.value else m.name,
              if u.targetCents.Some? then u.targetCents.value else m.targetCents,
              if u.targetDate.Some? then u.targetDate.value else m.targetDate,
              if u.achieved.Some? then (if u.achieved.value then 1 else 0) else m.achieved,
              if u.achieved.Some? then (if u.achieved.value then Some(today) else None) else m.achievedDate,
              m.createdAt)
  }

  lemma {:induction false} ApplyMilestoneFieldsAppend(m: Milestone, vs: seq<MilestoneField>, ws: seq<MilestoneField>,
                                                       today: Date)
    ensures ApplyMilestoneFields(m, vs + ws, today) == ApplyMilestoneFields(ApplyMilestoneFields(m, vs, today), ws, today)
  {
    if ws != [] {
      var k := |ws| - 1;
      assert (vs + ws)[..|vs + ws| - 1] == vs + ws[..k];
      assert (vs + ws)[|vs + ws| - 1] == ws[k];
      ApplyMilestoneFieldsAppend(m, vs, ws[..k], today);
    } else {
      assert vs + ws == vs;
    }
  }

  lemma ApplyOneMilestoneField(m: Milestone, vs: seq<MilestoneField>, today: Date)
    requires |vs| <= 1
    ensures vs == [] ==> ApplyMilestoneFields(m, vs, today) == m
    ensures vs != [] ==> ApplyMilestoneFields(m, vs, today) == SetMilestoneField(m, vs[0], today)
  {
    if vs != [] {
      assert vs[..0] == [];
    }
  }

  /** The update loop applies exactly the set fields: the achieved flag and
      date change together, so a milestone whose flag and date agreed still
      has them agree, and the id, goal and creation time stay. */
  lemma MilestoneUpdateSound(m: Milestone, u: MilestoneUpdate, today: Date)
    ensures ApplyMilestoneFields(m, MilestoneFields(u), today) == UpdatedMilestone(m, u, today)
    ensures var n := UpdatedMilestone(m, u, today);
      (u.achieved == Some(true) ==> n.achieved == 1 && n.achievedDate == Some(today))
      && (u.achieved == Some(false) ==> n.achieved == 0 && n.achievedDate.None?)
      && (AchievedRecorded(m) ==> AchievedRecorded(n))
  {
    var a, b, c, d := NameField(u), TargetField(u), DateField(u), AchievedField(u);
    ApplyMilestoneFieldsAppend(m, a + b + c, d, today);
    ApplyMilestoneFieldsAppend(m, a + b, c, today);
    ApplyMilestoneFieldsAppend(m, a, b, today);
    var m1 := ApplyMilestoneFields(m, a, today);
    var m2 := ApplyMilestoneFields(m1, b, today);
    var m3 := ApplyMilestoneFields(m2, c, today);
    NameStep(m, u, today);
    TargetStep(m1, u, today);
    DateStep(m2, u, today);
    AchievedStep(m3, u, today);
  }

  // One lemma per field of the update loop: the step replaces that field
  // (and, for `achieved`, the achieved date) when it is set.

  lemma NameStep(m: Milestone, u: MilestoneUpdate, today: Date)
    ensures ApplyMilestoneFields(m, NameField(u), today)
            == Milestone(m.id, m.goalId, if u.name.Some? then u.name.value else m.name, m.targetCents,
                         m.targetDate, m.achieved, m.achievedDate, m.createdAt)
  {
    ApplyOneMilestoneField(m, NameField(u), today);
  }

  lemma TargetStep(m: Milestone, u: MilestoneUpdate, today: Date)
    ensures ApplyMilestoneFields(m, TargetField(u), today)
            == Milestone(m.id, m.goalId, m.name, if u.targetCents.Some? then u.targetCents.value else m.targetCents,
                         m.targetDate, m.achieved, m.achievedDate, m.createdAt)
  {
    ApplyOneMilestoneField(m, TargetField(u), today);
  }

  lemma DateStep(m: Milestone, u: MilestoneUpdate, today: Date)
    ensures ApplyMilestoneFields(m, DateField(u), today)
            == Milestone(m.id, m.goalId, m.name, m.targetCents,
                         if u.targetDate.Some? then u.targetDate.value else m.targetDate,
                         m.achieved, m.achievedDate, m.createdAt)
  {
    ApplyOneMilestoneField(m, DateField(u), today);
  }

  lemma AchievedStep(m: Milestone, u: MilestoneUpdate, today: Date)
    ensures ApplyMilestoneFields(m, AchievedField(u), today)
            == Milestone(m.id, m.goalId, m.name, m.targetCents, m.targetDate,
                         if u.achieved.Some? then (if u.achieved.value then 1 else 0) else m.achieved,
                         if u.achieved.Some? then (if u.achieved.value then Some(today) else None) else m.achievedDate,
                         m.createdAt)
  {
    ApplyOneMilestoneField(m, AchievedField(u), today);
  }

  /** The position of the goal's milestone with that id. */
  function MilestoneIndex(milestones: seq<Milestone>, milestoneId: int, goalId: int): (r: Option<nat>)
    ensures r.Some? ==>
      r.value < |milestones| && milestones[r.value].id == milestoneId && milestones[r.value].goalId == goalId
    ensures r.None? ==>
      forall i :: 0 <= i < |milestones| ==> !(milestones[i].id == milestoneId && milestones[i].goalId == goalId)
  {
    if milestones == [] then None
    else if milestones[0].id == milestoneId && milestones[0].goalId == goalId then Some(0)
    else match MilestoneIndex(milestones[1..], milestoneId, goalId)
         case None => None
         case Some(i) => Some(i + 1)
  }

  /** The rows of one goal: every row of the goal and no other, in table
      order. */
  function ContributionsOfGoal(contributions: seq<Contribution>, goalId: int): (r: seq<Contribution>)
    ensures forall c :: c in r <==> c in contributions && c.goalId == goalId
    ensures OrderKept(contributions, r)
  {
    var p := (c: Contribution) => c.goalId == goalId;
    FilterMembers(contributions, p);
    FilterKeepsOrder(contributions, p);
    Filter(contributions, p)
  }

  function MilestonesOfGoal(milestones: seq<Milestone>, goalId: int): (r: seq<Milestone>)
    ensures forall m :: m in r <==> m in milestones && m.goalId == goalId
    ensures OrderKept(milestones, r)
  {
    var p := (m: Milestone) => m.goalId == goalId;
    FilterMembers(milestones, p);
    FilterKeepsOrder(milestones, p);
    Filter(milestones, p)
  }

  /** get_contributions: the goal's contributions, all of them and in table
      order, or 404 for a goal the user does not have. */
  function GetContributions(goals: seq<Goal>, contributions: seq<Contribution>, userId: int, goalId: int)
    : (r: Result<seq<Contribution>>)
    ensures GoalIndex(goals, goalId, userId).None? <==> r == Err(NotFound("Goal"))
    ensures r.Ok? ==> (forall c :: c in r.value <==> c in contributions && c.goalId == goalId)
                      && OrderKept(contributions, r.value)
  {
    if GoalIndex(goals, goalId, userId).None? then Err(NotFound("Goal")) else Ok(ContributionsOfGoal(contributions, goalId))
  }

  /** get_milestones: the goal's milestones, all of them and in table
      order, or 404 for a goal the user does not have. */
  function GetMilestones(goals: seq<Goal>, milestones: seq<Milestone>, userId: int, goalId: int)
    : (r: Result<seq<Milestone>>)
    ensures GoalIndex(goals, goalId, userId).None? <==> r == Err(NotFound("Goal"))
    ensures r.Ok? ==> (forall m :: m in r.value <==> m in milestones && m.goalId == goalId)
                      && OrderKept(milestones, r.value)
  {
    if GoalIndex(goals, goalId, userId).None? then Err(NotFound("Goal")) else Ok(MilestonesOfGoal(milestones, goalId))
  }

  /** A new row of a goal is listed last among its rows. */
  lemma ContributionsOfGoalAppend(contributions: seq<Contribution>, c: Contribution)
    ensures ContributionsOfGoal(contributions + [c], c.goalId) == ContributionsOfGoal(contributions, c.goalId) + [c]
  {
    assert (contributions + [c])[..|contributions|] == contributions;
  }

  lemma MilestonesOfGoalAppend(milestones: seq<Milestone>, m: Milestone)
    ensures MilestonesOfGoal(milestones + [m], m.goalId) == MilestonesOfGoal(milestones, m.goalId) + [m]
  {
    assert (milestones + [m])[..|milestones|] == milestones;
  }

  // ---------------------------------------------------------------------
  // The tables

  datatype GoalCreate = GoalCreate(
    name: string, description: Option<string>, goalType: string, targetCents: int, monthlyCents: int,
    targetDate: Date, startDate: Date, priority: int, notes: Option<string>)

  datatype ContributionCreate = ContributionCreate(amountCents: int, contributionDate: Date, notes: Option<string>)

  /** Replacing or removing a row keeps every id below the counter. */
  lemma GoalSetIdsBelow(goals: seq<Goal>, i: nat, g: Goal, bound: int)
    requires i < |goals| && g.id < bound && forall x :: x in goals ==> x.id < bound
    ensures forall x :: x in goals[i := g] ==> x.id < bound
  {
    forall x | x in goals[i := g] ensures x.id < bound {
      var j :| 0 <= j < |goals| && goals[i := g][j] == x;
      if j != i { assert goals[j] in goals; }
    }
  }

  lemma GoalRemoveIdsBelow(goals: seq<Goal>, i: nat, bound: int)
    requires i < |goals| && forall x :: x in goals ==> x.id < bound
    ensures forall x :: x in goals[..i] + goals[i + 1..] ==> x.id < bound
  {
    forall x | x in goals[..i] + goals[i + 1..] ensures x.id < bound {
      assert x in goals;
    }
  }

  lemma MilestoneSetIdsBelow(milestones: seq<Milestone>, i: nat, m: Milestone, bound: int)
    requires i < |milestones| && m.id < bound && forall x :: x in milestones ==> x.id < bound
    ensures forall x :: x in milestones[i := m] ==> x.id < bound
  {
    forall x | x in milestones[i := m] ensures x.id < bound {
      var j :| 0 <= j < |milestones| && milestones[i := m][j] == x;
      if j != i { assert milestones[j] in milestones; }
    }
  }

  lemma MilestoneRemoveIdsBelow(milestones: seq<Milestone>, i: nat, bound: int)
    requires i < |milestones| && forall x :: x in milestones ==> x.id < bound
    ensures forall x :: x in milestones[..i] + milestones[i + 1..] ==> x.id < bound
  {
    forall x | x in milestones[..i] + milestones[i + 1..] ensures x.id < bound {
      assert x in milestones;
    }
  }

  /** The three tables, with one id counter for the rows of all of them. */
  class GoalDb {
    var goals: seq<Goal>
    var contributions: seq<Contribution>
    var milestones: seq<Milestone>
    var nextId: int

    ghost predicate Valid()
      reads this
    {
      nextId >= 1
      && (forall g :: g in goals ==> g.id < nextId)
      && (forall c :: c in contributions ==> c.id < nextId)
      && (forall m :: m in milestones ==> m.id < nextId)
    }

    constructor()
      ensures Valid() && goals == [] && contributions == [] && milestones == [] && nextId == 1
    {
      goals, contributions, milestones, nextId := [], [], [], 1;
    }
  }

  /** The values of the goal type and status enumerations. */
  const GoalTypes: set<string> := {"savings", "debt_repayment", "investment", "emergency_fund", "retirement",
                                   "education", "home_purchase", "vehicle", "vacation", "other"}
  const GoalStatuses: set<string> := {Active, Completed, "paused", "cancelled"}

  /** The field constraints of a creation body: the type is one of the
      enumeration, the target is positive, the monthly contribution is not
      negative and the priority is 1 to 5; the first field breaking one,
      or None. */
  function GoalCreateError(req: GoalCreate): (r: Option<string>)
    ensures r.None? <==> req.goalType in GoalTypes && req.targetCents > 0 && req.monthlyCents >= 0
                         && 1 <= req.priority <= 5
  {
    if req.goalType !in GoalTypes then Some("goal_type")
    else if req.targetCents <= 0 then Some("target_amount")
    else if req.monthlyCents < 0 then Some("monthly_contribution")
    else if !(1 <= req.priority <= 5) then Some("priority")
    else None
  }

  /** The field constraints of an update body, each checked when the field
      is given; the first field breaking one, or None. */
  function GoalUpdateError(u: GoalUpdate): (r: Option<string>)
    ensures r.None? <==> (u.goalType.Some? ==> u.goalType.value in GoalTypes)
                         && (u.targetCents.Some? ==> u.targetCents.value > 0)
                         && (u.currentCents.Some? ==> u.currentCents.value >= 0)
                         && (u.monthlyCents.Some? ==> u.monthlyCents.value >= 0)
                         && (u.status.Some? ==> u.status.value in GoalStatuses)
                         && (u.priority.Some? ==> 1 <= u.priority.value <= 5)
  {
    if u.goalType.Some? && u.goalType.value !in GoalTypes then Some("goal_type")
    else if u.targetCents.Some? && u.targetCents.value <= 0 then Some("target_amount")
    else if u.currentCents.Some? && u.currentCents.value < 0 then Some("current_amount")
    else if u.monthlyCents.Some? && u.monthlyCents.value < 0 then Some("monthly_contribution")
    else if u.status.Some? && u.status.value !in GoalStatuses then Some("status")
    else if u.priority.Some? && !(1 <= u.priority.value <= 5) then Some("priority")
    else None
  }

  /** An amount field that must be positive when given: the field's name
      when it is not, None otherwise. */
  function PositiveFieldError(field: string, cents: Option<int>): (r: Option<string>)
    ensures r.None? <==> (cents.Some? ==> cents.value > 0)
    ensures r.Some? ==> r.value == field
  {
    if cents.Some? && cents.value <= 0 then Some(field) else None
  }

  /** create_goal: a valid body makes a goal with nothing saved that is
      active. */
  method CreateGoal(db: GoalDb, userId: int, req: GoalCreate, now: int) returns (r: Result<Goal>)
    requires db.Valid()
    modifies db
    ensures db.Valid()
    ensures GoalCreateError(req).Some? ==>
      r == Err(Invalid(GoalCreateError(req).value)) && db.goals == old(db.goals) && db.nextId == old(db.nextId)
    ensures GoalCreateError(req).None? ==>
      var g := Goal(old(db.nextId), userId, req.name, req.description, req.goalType, req.targetCents, 0,
                    req.monthlyCents, req.targetDate, req.startDate, Active, req.priority, req.notes, now, now);
      r == Ok(g) && db.goals == old(db.goals) + [g] && db.nextId == old(db.nextId) + 1
      && GetGoal(db.goals, userId, g.id) == Ok(g)
    ensures db.contributions == old(db.contributions) && db.milestones == old(db.milestones)
  {
    var error := GoalCreateError(req);
    if error.Some? {
      return Err(Invalid(error.value));
    }
    var g := Goal(db.nextId, userId, req.name, req.description, req.goalType, req.targetCents, 0,
                  req.monthlyCents, req.targetDate, req.startDate, Active, req.priority, req.notes, now, now);
    NewGoalFound(db.goals, g, db.nextId);
    db.goals := db.goals + [g];
    db.nextId := db.nextId + 1;
    return Ok(g);
  }

  /** A goal with an id above every stored one is found in first place
      behind them. */
  lemma NewGoalFound(goals: seq<Goal>, g: Goal, nextId: int)
    requires forall x :: x in goals ==> x.id < nextId
    requires g.id == nextId
    ensures GoalIndex(goals + [g], g.id, g.userId) == Some(|goals|)
    ensures GetGoal(goals + [g], g.userId, g.id) == Ok(g)
  {
    var s := goals + [g];
    forall i | 0 <= i < |goals| ensures s[i].id != g.id {
      assert s[i] == goals[i] && goals[i] in goals;
    }
    var r := GoalIndex(s, g.id, g.userId);
    assert s[|goals|] == g;
    assert r.Some?;
    assert !(r.value < |goals|);
  }

  /** get_goal_projection: the override is written to the goal only for
      the projection and taken back afterwards. */
  method GoalProjection(db: GoalDb, userId: int, goalId: int, overrideCents: Option<int>, today: Date)
    returns (r: Result<Projection>)
    requires ValidDate(today)
    modifies db
    ensures db.goals == old(db.goals) && db.contributions == old(db.contributions)
    ensures db.milestones == old(db.milestones) && db.nextId == old(db.nextId)
    ensures GoalIndex(db.goals, goalId, userId).None? ==> r == Err(NotFound("Goal"))
    ensures GoalIndex(db.goals, goalId, userId).Some? ==>
      var g := db.goals[GoalIndex(db.goals, goalId, userId).value];
      r == CalculateProjection(if overrideCents.Some? then g.(monthlyCents := overrideCents.value) else g, today)
  {
    var found := GoalIndex(db.goals, goalId, userId);
    if found.None? {
      return Err(NotFound("Goal"));
    }
    var i := found.value;
    if overrideCents.Some? {
      var original := db.goals[i].monthlyCents;
      db.goals := db.goals[i := db.goals[i].(monthlyCents := overrideCents.value)];
      var p := CalculateProjection(db.goals[i], today);
      db.goals := db.goals[i := db.goals[i].(monthlyCents := original)];
      assert db.goals == old(db.goals);
      r := p;
    } else {
      r := CalculateProjection(db.goals[i], today);
    }
  }

  /** update_goal: the set fields are assigned one by one, the update time
      is stamped and the goal completed if it is active and fully saved. */
  method UpdateGoal(db: GoalDb, userId: int, goalId: int, u: GoalUpdate, now: int) returns (r: Result<Goal>)
    requires db.Valid()
    modifies db
    ensures db.Valid()
    ensures db.contributions == old(db.contributions) && db.milestones == old(db.milestones)
    ensures db.nextId == old(db.nextId)
    ensures GoalUpdateError(u).Some? ==> r == Err(Invalid(GoalUpdateError(u).value)) && db.goals == old(db.goals)
    ensures GoalUpdateError(u).None? && GoalIndex(old(db.goals), goalId, userId).None? ==>
      r == Err(NotFound("Goal")) && db.goals == old(db.goals)
    ensures GoalUpdateError(u).None? && GoalIndex(old(db.goals), goalId, userId).Some? ==>
      var i := GoalIndex(old(db.goals), goalId, userId).value;
      var g := AutoCompleted(UpdatedGoal(old(db.goals)[i], u).(updatedAt := now));
      r == Ok(g) && db.goals == old(db.goals)[i := g]
  {
    var error := GoalUpdateError(u);
    if error.Some? {
      return Err(Invalid(error.value));
    }
    var found := GoalIndex(db.goals, goalId, userId);
    if found.None? {
      return Err(NotFound("Goal"));
    }
    var i := found.value;
    var g := db.goals[i];
    var fields := GoalFields(u);
    for k := 0 to |fields|
      invariant g == ApplyGoalFields(db.goals[i], fields[..k])
    {
      assert fields[..k + 1][..k] == fields[..k];
      g := SetGoalField(g, fields[k]);
    }
    assert fields[..|fields|] == fields;
    GoalUpdateSetsOnlyGivenFields(db.goals[i], u);
    g := g.(updatedAt := now);
    if g.currentCents >= g.targetCents && g.status == Active {
      g := g.(status := Completed);
    }
    assert db.goals[i] in db.goals;
    GoalSetIdsBelow(db.goals, i, g, db.nextId);
    db.goals := db.goals[i := g];
    return Ok(g);
  }

  /** delete_goal: the goal goes, and its contributions and milestones
      with it. */
  method DeleteGoal(db: GoalDb, userId: int, goalId: int) returns (r: Result<()>)
    requires db.Valid()
    modifies db
    ensures db.Valid() && db.nextId == old(db.nextId)
    ensures GoalIndex(old(db.goals), goalId, userId).None? ==>
      r == Err(NotFound("Goal")) && db.goals == old(db.goals)
      && db.contributions == old(db.contributions) && db.milestones == old(db.milestones)
    ensures GoalIndex(old(db.goals), goalId, userId).Some? ==>
      var i := GoalIndex(old(db.goals), goalId, userId).value;
      r == Ok(()) && db.goals == old(db.goals)[..i] + old(db.goals)[i + 1..]
      && db.contributions == Filter(old(db.contributions), (c: Contribution) => c.goalId != goalId)
      && db.milestones == Filter(old(db.milestones), (m: Milestone) => m.goalId != goalId)
  {
    var found := GoalIndex(db.goals, goalId, userId);
    if found.None? {
      return Err(NotFound("Goal"));
    }
    var i := found.value;
    GoalRemoveIdsBelow(db.goals, i, db.nextId);
    db.goals := db.goals[..i] + db.goals[i + 1..];
    db.contributions := Filter(db.contributions, (c: Contribution) => c.goalId != goalId);
    db.milestones := Filter(db.milestones, (m: Milestone) => m.goalId != goalId);
    return Ok(());
  }

  /** add_contribution: an amount that is not positive is refused; otherwise
      the row is stored and the goal's saved amount goes up by the
      contribution, completing an active goal that reaches its target. */
  method AddContribution(db: GoalDb, userId: int, goalId: int, req: ContributionCreate, now: int)
    returns (r: Result<Contribution>)
    requires db.Valid()
    modifies db
    ensures db.Valid() && db.milestones == old(db.milestones)
    ensures req.amountCents <= 0 ==>
      r == Err(Invalid("amount")) && db.goals == old(db.goals)
      && db.contributions == old(db.contributions) && db.nextId == old(db.nextId)
    ensures req.amountCents > 0 && GoalIndex(old(db.goals), goalId, userId).None? ==>
      r == Err(NotFound("Goal")) && db.goals == old(db.goals)
      && db.contributions == old(db.contributions) && db.nextId == old(db.nextId)
    ensures req.amountCents > 0 && GoalIndex(old(db.goals), goalId, userId).Some? ==>
      var i := GoalIndex(old(db.goals), goalId, userId).value;
      var c := Contribution(old(db.nextId), goalId, req.amountCents, req.contributionDate, req.notes, now);
      r == Ok(c) && db.contributions == old(db.contributions) + [c] && db.nextId == old(db.nextId) + 1
      && db.goals == old(db.goals)[i := Contributed(old(db.goals)[i], req.amountCents, now)]
      && ContributionsOfGoal(db.contributions, goalId) == ContributionsOfGoal(old(db.contributions), goalId) + [c]
  {
    var error := PositiveFieldError("amount", Some(req.amountCents));
    if error.Some? {
      return Err(Invalid(error.value));
    }
    r := RecordContribution(db, userId, goalId, req, now);
  }

  /** The handler body after validation. */
  method RecordContribution(db: GoalDb, userId: int, goalId: int, req: ContributionCreate, now: int)
    returns (r: Result<Contribution>)
    requires db.Valid()
    modifies db
    ensures db.Valid() && db.milestones == old(db.milestones)
    ensures GoalIndex(old(db.goals), goalId, userId).None? ==>
      r == Err(NotFound("Goal")) && db.goals == old(db.goals)
      && db.contributions == old(db.contributions) && db.nextId == old(db.nextId)
    ensures GoalIndex(old(db.goals), goalId, userId).Some? ==>
      var i := GoalIndex(old(db.goals), goalId, userId).value;
      var c := Contribution(old(db.nextId), goalId, req.amountCents, req.contributionDate, req.notes, now);
      r == Ok(c) && db.contributions == old(db.contributions) + [c] && db.nextId == old(db.nextId) + 1
      && db.goals == old(db.goals)[i := Contributed(old(db.goals)[i], req.amountCents, now)]
      && ContributionsOfGoal(db.contributions, goalId) == ContributionsOfGoal(old(db.contributions), goalId) + [c]
  {
    var found := GoalIndex(db.goals, goalId, userId);
    if found.None? {
      return Err(NotFound("Goal"));
    }
    var i := found.value;
    var c := Contribution(db.nextId, goalId, req.amountCents, req.contributionDate, req.notes, now);
    var g := db.goals[i];
    g := g.(currentCents := g.currentCents + req.amountCents, updatedAt := now);
    if g.currentCents >= g.targetCents && g.status == Active {
      g := g.(status := Completed);
    }
    ContributionsOfGoalAppend(db.contributions, c);
    assert db.goals[i] in db.goals;
    GoalSetIdsBelow(db.goals, i, g, db.nextId + 1);
    db.goals := db.goals[i := g];
    db.contributions := db.contributions + [c];
    db.nextId := db.nextId + 1;
    return Ok(c);
  }

  /** create_milestone: a new milestone is not achieved. */
  method CreateMilestone(db: GoalDb, userId: int, goalId: int, req: MilestoneCreate, now: int)
    returns (r: Result<Milestone>)
    requires db.Valid()
    modifies db
    ensures db.Valid() && db.goals == old(db.goals) && db.contributions == old(db.contributions)
    ensures req.targetCents <= 0 ==>
      r == Err(Invalid("target_amount")) && db.milestones == old(db.milestones) && db.nextId == old(db.nextId)
    ensures req.targetCents > 0 && GoalIndex(db.goals, goalId, userId).None? ==>
      r == Err(NotFound("Goal")) && db.milestones == old(db.milestones) && db.nextId == old(db.nextId)
    ensures req.targetCents > 0 && GoalIndex(db.goals, goalId, userId).Some? ==>
      var m := Milestone(old(db.nextId), goalId, req.name, req.targetCents, req.targetDate, 0, None, now);
      r == Ok(m) && AchievedRecorded(m)
      && db.milestones == old(db.milestones) + [m] && db.nextId == old(db.nextId) + 1
      && MilestonesOfGoal(db.milestones, goalId) == MilestonesOfGoal(old(db.milestones), goalId) + [m]
  {
    var error := PositiveFieldError("target_amount", Some(req.targetCents));
    if error.Some? {
      return Err(Invalid(error.value));
    }
    if GoalIndex(db.goals, goalId, userId).None? {
      return Err(NotFound("Goal"));
    }
    var m := Milestone(db.nextId, goalId, req.name, req.targetCents, req.targetDate, 0, None, now);
    MilestonesOfGoalAppend(db.milestones, m);
    db.milestones := db.milestones + [m];
    db.nextId := db.nextId + 1;
    return Ok(m);
  }

  /** The `for field, value in update_data.items()` loop of update_milestone. */
  method AssignMilestoneFields(m0: Milestone, fields: seq<MilestoneField>, today: Date) returns (m: Milestone)
    ensures m == ApplyMilestoneFields(m0, fields, today)
  {
    m := m0;
    for k := 0 to |fields|
      invariant m == ApplyMilestoneFields(m0, fields[..k], today)
    {
      assert fields[..k + 1][..k] == fields[..k];
      if fields[k].SetAchieved? && fields[k].achieved {
        m := Milestone(m.id, m.goalId, m.name, m.targetCents, m.targetDate, 1, Some(today), m.createdAt);
      } else if fields[k].SetAchieved? {
        m := Milestone(m.id, m.goalId, m.name, m.targetCents, m.targetDate, 0, None, m.createdAt);
      } else {
        m := SetMilestoneField(m, fields[k], today);
      }
    }
    assert fields[..|fields|] == fields;
  }

  /** update_milestone: the goal must belong to the user and the
      milestone to the goal; the set fields are assigned in order. */
  method UpdateMilestone(db: GoalDb, userId: int, goalId: int, milestoneId: int, u: MilestoneUpdate, today: Date)
    returns (r: Result<Milestone>)
    requires db.Valid()
    modifies db
    ensures db.Valid() && db.goals == old(db.goals) && db.contributions == old(db.contributions)
    ensures db.nextId == old(db.nextId)
    ensures u.targetCents.Some? && u.targetCents.value <= 0 ==>
      r == Err(Invalid("target_amount")) && db.milestones == old(db.milestones)
    ensures PositiveFieldError("target_amount", u.targetCents).None? ==>
      (GoalIndex(db.goals, goalId, userId).None? ==> r == Err(NotFound("Goal")) && db.milestones == old(db.milestones))
      && (GoalIndex(db.goals, goalId, userId).Some? && MilestoneIndex(old(db.milestones), milestoneId, goalId).None? ==>
            r == Err(NotFound("Milestone")) && db.milestones == old(db.milestones))
    ensures PositiveFieldError("target_amount", u.targetCents).None?
            && GoalIndex(db.goals, goalId, userId).Some? && MilestoneIndex(old(db.milestones), milestoneId, goalId).Some? ==>
      var i := MilestoneIndex(old(db.milestones), milestoneId, goalId).value;
      var m := UpdatedMilestone(old(db.milestones)[i], u, today);
      r == Ok(m) && db.milestones == old(db.milestones)[i := m]
  {
    var error := PositiveFieldError("target_amount", u.targetCents);
    if error.Some? {
      return Err(Invalid(error.value));
    }
    if GoalIndex(db.goals, goalId, userId).None? {
      return Err(NotFound("Goal"));
    }
    var found := MilestoneIndex(db.milestones, milestoneId, goalId);
    if found.None? {
      return Err(NotFound("Milestone"));
    }
    var i := found.value;
    var m := AssignMilestoneFields(db.milestones[i], MilestoneFields(u), today);
    MilestoneUpdateSound(db.milestones[i], u, today);
    assert db.milestones[i] in db.milestones;
    MilestoneSetIdsBelow(db.milestones, i, m, db.nextId);
    db.milestones := db.milestones[i := m];
    return Ok(m);
  }

  /** delete_milestone */
  method DeleteMilestone(db: GoalDb, userId: int, goalId: int, milestoneId: int) returns (r: Result<()>)
    requires db.Valid()
    modifies db
    ensures db.Valid() && db.goals == old(db.goals) && db.contributions == old(db.contributions)
    ensures db.nextId == old(db.nextId)
    ensures GoalIndex(db.goals, goalId, userId).None? ==> r == Err(NotFound("Goal")) && db.milestones == old(db.milestones)
    ensures GoalIndex(db.goals, goalId, userId).Some? && MilestoneIndex(old(db.milestones), milestoneId, goalId).None? ==>
      r == Err(NotFound("Milestone")) && db.milestones == old(db.milestones)
    ensures GoalIndex(db.goals, goalId, userId).Some? && MilestoneIndex(old(db.milestones), milestoneId, goalId).Some? ==>
      var i := MilestoneIndex(old(db.milestones), milestoneId, goalId).value;
      r == Ok(()) && db.milestones == old(db.milestones)[..i] + old(db.milestones)[i + 1..]
  {
    if GoalIndex(db.goals, goalId, userId).None? {
      return Err(NotFound("Goal"));
    }
    var found := MilestoneIndex(db.milestones, milestoneId, goalId);
    if found.None? {
      return Err(NotFound("Milestone"));
    }
    var i := found.value;
    MilestoneRemoveIdsBelow(db.milestones, i, db.nextId);
    db.milestones := db.milestones[..i] + db.milestones[i + 1..];
    return Ok(());
  }
}
