/** The sinking-fund API: savings funds with a target, a balance that
    contributions (deposits and withdrawals) move, the progress and
    summary figures, and the fund detail with its latest contributions.
    Timestamps are integers (seconds); the clock is a parameter. */
module SinkingFunds {
  import opened Common
  import opened Sorting

  datatype Fund = Fund(
    id: int, userId: int, name: string, targetCents: int, balanceCents: int, monthlyCents: int,
    targetDate: Option<int>, description: Option<string>, color: Option<string>,
    isActive: bool, createdAt: int)

  /** A positive amount is a deposit, a negative one a withdrawal. */
  datatype Contribution = Contribution(id: int, fundId: int, amountCents: int, date: int, notes: Option<string>)

  /** The tables the handlers work on. */
  datatype Store = Store(funds: seq<Fund>, contributions: seq<Contribution>, nextId: int)

  const MaxNameLength := 255
  const MaxContributionLimit := 500
  /** The average month length the on-track test divides days by. */
  const DaysPerMonth: real := 30.44

  // ---------------------------------------------------------------------
  // Progress and summary

  datatype Progress = Progress(
    progressPercentage: real, remainingCents: int, monthsToTarget: Option<real>, onTrack: bool,
    totalContributedCents: int, contributionCount: int)

  /** calculate_fund_progress. `daysToTargetDate` is the whole number of
      days from now to the fund's target date, None when it has none. */
  function FundProgress(f: Fund, totalContributed: int, count: int, daysToTargetDate: Option<int>): (r: Progress)
    ensures r.remainingCents == f.targetCents - f.balanceCents
    ensures f.targetCents > 0 ==> r.progressPercentage * (f.targetCents as real) == (f.balanceCents as real) * 100.0
    ensures f.targetCents <= 0 ==> r.progressPercentage == 0.0
    ensures r.monthsToTarget.None? <==> f.monthlyCents <= 0 || r.remainingCents <= 0
    ensures r.monthsToTarget.Some? ==>
      r.monthsToTarget.value > 0.0 && r.monthsToTarget.value * (f.monthlyCents as real) == r.remainingCents as real
    ensures r.monthsToTarget.None? || daysToTargetDate.None? ==> r.onTrack
    ensures r.monthsToTarget.Some? && daysToTargetDate.Some? ==>
      (r.onTrack <==> daysToTargetDate.value > 0
                      && r.monthsToTarget.value * DaysPerMonth <= daysToTargetDate.value as real)
    ensures r.totalContributedCents == totalContributed && r.contributionCount == count
  {
    var remaining := f.targetCents - f.balanceCents;
    var percentage := if f.targetCents > 0 then (f.balanceCents as real) / (f.targetCents as real) * 100.0 else 0.0;
    if f.monthlyCents > 0 && remaining > 0 then
      var months := (remaining as real) / (f.monthlyCents as real);
      var onTrack :=
        if daysToTargetDate.None? then true
        else
          var monthsLeft := (daysToTargetDate.value as real) / DaysPerMonth;
          if monthsLeft > 0.0 then months <= monthsLeft else false;
      Progress(percentage, remaining, Some(months), onTrack, totalContributed, count)
    else
      Progress(percentage, remaining, None, true, totalContributed, count)
  }

  datatype Summary = Summary(
    totalFunds: nat, totalTargetCents: int, totalSavedCents: int, totalRemainingCents: int,
    overallProgressPercentage: real, activeFunds: nat)

  function ActiveFundOf(userId: int): Fund -> bool
  {
    (f: Fund) => f.userId == userId && f.isActive
  }

  function TargetOf(f: Fund): int { f.targetCents }
  function BalanceOf(f: Fund): int { f.balanceCents }
  function RemainingOf(f: Fund): int { f.targetCents - f.balanceCents }

  /** get_sinking_funds_summary over the user's active funds. */
  function FundsSummary(funds: seq<Fund>, userId: int): (r: Summary)
    ensures r.totalFunds == r.activeFunds == |Filter(funds, ActiveFundOf(userId))|
    ensures r.totalTargetCents == SumOf(Filter(funds, ActiveFundOf(userId)), TargetOf)
    ensures r.totalSavedCents == SumOf(Filter(funds, ActiveFundOf(userId)), BalanceOf)
    ensures r.totalTargetCents > 0 ==>
      r.overallProgressPercentage * (r.totalTargetCents as real) == (r.totalSavedCents as real) * 100.0
  {
    var active := Filter(funds, ActiveFundOf(userId));
    var target := SumOf(active, TargetOf);
    var saved := SumOf(active, BalanceOf);
    Summary(|active|, target, saved, target - saved,
            if target > 0 then (saved as real) / (target as real) * 100.0 else 0.0, |active|)
  }

  lemma {:induction false} SumOfRemaining(fs: seq<Fund>)
    ensures SumOf(fs, RemainingOf) == SumOf(fs, TargetOf) - SumOf(fs, BalanceOf)
  {
    if fs != [] {
      SumOfRemaining(fs[..|fs| - 1]);
    }
  }

  /** What remains overall is what remains of each active fund, added up. */
  lemma SummaryRemaining(funds: seq<Fund>, userId: int)
    ensures FundsSummary(funds, userId).totalRemainingCents == SumOf(Filter(funds, ActiveFundOf(userId)), RemainingOf)
  {
    SumOfRemaining(Filter(funds, ActiveFundOf(userId)));
  }

  // ---------------------------------------------------------------------
  // Lookups

  /** The position of the user's fund with that id. */
  function FundIndex(funds: seq<Fund>, fundId: int, userId: int): (r: Option<nat>)
    ensures r.Some? ==> r.value < |funds| && funds[r.value].id == fundId && funds[r.value].userId == userId
    ensures r.None? ==> forall i :: 0 <= i < |funds| ==> !(funds[i].id == fundId && funds[i].userId == userId)
  {
    if funds == [] then None
    else if funds[0].id == fundId && funds[0].userId == userId then Some(0)
    else match FundIndex(funds[1..], fundId, userId)
         case None => None
         case Some(i) => Some(i + 1)
  }

  /** The position of the first contribution with that id in that fund. */
  function ContributionIndex(cs: seq<Contribution>, contributionId: int, fundId: int): (r: Option<nat>)
    ensures r.Some? ==>
      r.value < |cs| && cs[r.value].id == contributionId && cs[r.value].fundId == fundId
      && forall k :: 0 <= k < r.value ==> !(cs[k].id == contributionId && cs[k].fundId == fundId)
    ensures r.None? ==> forall i :: 0 <= i < |cs| ==> !(cs[i].id == contributionId && cs[i].fundId == fundId)
  {
    if cs == [] then None
    else if cs[0].id == contributionId && cs[0].fundId == fundId then Some(0)
    else match ContributionIndex(cs[1..], contributionId, fundId)
         case None => None
         case Some(i) => Some(i + 1)
  }

  /** Every id handed out so far is below the counter. */
  ghost predicate IdsBelow(st: Store)
  {
    st.nextId >= 1
    && (forall i :: 0 <= i < |st.funds| ==> st.funds[i].id < st.nextId)
    && (forall i :: 0 <= i < |st.contributions| ==> st.contributions[i].id < st.nextId)
  }

  // ---------------------------------------------------------------------
  // Contributions

  const NegativeBalance := BadRequest("Withdrawal would result in negative balance")

  /** add_contribution: the store after the request, or the error. The
      date defaults to now; a withdrawal that would take the balance
      below zero is refused and nothing is stored. */
  function AddContribution(st: Store, userId: int, fundId: int, amountCents: int, date: Option<int>, now: int,
                           notes: Option<string>): (r: Result<Store>)
    ensures FundIndex(st.funds, fundId, userId).None? ==> r == Err(NotFound("Sinking fund"))
    ensures FundIndex(st.funds, fundId, userId).Some? ==>
      var i := FundIndex(st.funds, fundId, userId).value;
      (r == Err(NegativeBalance) <==> st.funds[i].balanceCents + amountCents < 0)
      && (r.Ok? ==>
            st.funds[i].balanceCents + amountCents >= 0
            && r.value.funds == st.funds[i := st.funds[i].(balanceCents := st.funds[i].balanceCents + amountCents)]
            && r.value.contributions
               == st.contributions + [Contribution(st.nextId, fundId, amountCents, if date.Some? then date.value else now, notes)]
            && r.value.nextId == st.nextId + 1)
    ensures r.Ok? ==> IdsBelow(st) ==> IdsBelow(r.value)
  {
    match FundIndex(st.funds, fundId, userId)
    case None => Err(NotFound("Sinking fund"))
    case Some(i) =>
      var c := Contribution(st.nextId, fundId, amountCents, if date.Some? then date.value else now, notes);
      var f := st.funds[i].(balanceCents := st.funds[i].balanceCents + amountCents);
      if f.balanceCents < 0 then Err(NegativeBalance)
      else Ok(Store(st.funds[i := f], st.contributions + [c], st.nextId + 1))
  }

  /** delete_contribution: the contribution is removed and its amount
      taken off the balance, with no check that the balance stays at zero
      or more. */
  function DeleteContribution(st: Store, userId: int, fundId: int, contributionId: int): (r: Result<Store>)
    ensures FundIndex(st.funds, fundId, userId).None? ==> r == Err(NotFound("Sinking fund"))
    ensures FundIndex(st.funds, fundId, userId).Some? && ContributionIndex(st.contributions, contributionId, fundId).None?
      ==> r == Err(NotFound("Contribution"))
    ensures FundIndex(st.funds, fundId, userId).Some? && ContributionIndex(st.contributions, contributionId, fundId).Some?
      ==> var i := FundIndex(st.funds, fundId, userId).value;
          var j := ContributionIndex(st.contributions, contributionId, fundId).value;
          r.Ok? && r.value.nextId == st.nextId
          && r.value.funds == st.funds[i := st.funds[i].(balanceCents := st.funds[i].balanceCents - st.contributions[j].amountCents)]
          && r.value.contributions == st.contributions[..j] + st.contributions[j + 1..]
  {
    match FundIndex(st.funds, fundId, userId)
    case None => Err(NotFound("Sinking fund"))
    case Some(i) =>
      match ContributionIndex(st.contributions, contributionId, fundId)
      case None => Err(NotFound("Contribution"))
      case Some(j) =>
        var f := st.funds[i].(balanceCents := st.funds[i].balanceCents - st.contributions[j].amountCents);
        Ok(Store(st.funds[i := f], st.contributions[..j] + st.contributions[j + 1..], st.nextId))
  }

  /** Deleting the contribution just added gives back the funds and
      contributions as they were: the balance is restored exactly. */
  lemma AddThenDeleteRestores(st: Store, userId: int, fundId: int, amountCents: int, date: Option<int>, now: int,
                              notes: Option<string>)
    requires IdsBelow(st)
    requires AddContribution(st, userId, fundId, amountCents, date, now, notes).Ok?
    ensures var added := AddContribution(st, userId, fundId, amountCents, date, now, notes).value;
      DeleteContribution(added, userId, fundId, st.nextId) == Ok(st.(nextId := st.nextId + 1))
  {
    var added := AddContribution(st, userId, fundId, amountCents, date, now, notes).value;
    var i := FundIndex(st.funds, fundId, userId).value;
    FundIndexAfterUpdate(st.funds, i, added.funds[i], fundId, userId);
    assert added.funds[i := added.funds[i].(balanceCents := added.funds[i].balanceCents - amountCents)] == st.funds;
    var n := |st.contributions|;
    var j := ContributionIndex(added.contributions, st.nextId, fundId);
    assert added.contributions[n].id == st.nextId;
    assert forall k :: 0 <= k < n ==> added.contributions[k] == st.contributions[k];
    assert j == Some(n);
    assert added.contributions[..n] + added.contributions[n + 1..] == st.contributions;
  }

  /** Deleting a deposit that a later withdrawal spent leaves the fund
      below zero. */
  lemma DeleteCanLeaveNegative()
    ensures var f := Fund(1, 7, "Car", 1000, 0, 0, None, None, None, true, 0);
      var st := Store([f], [Contribution(2, 1, 100, 0, None), Contribution(3, 1, -100, 1, None)], 4);
      var r := DeleteContribution(st, 7, 1, 2);
      r.Ok? && r.value.funds[0].balanceCents == -100
  {
    var f := Fund(1, 7, "Car", 1000, 0, 0, None, None, None, true, 0);
    var st := Store([f], [Contribution(2, 1, 100, 0, None), Contribution(3, 1, -100, 1, None)], 4);
    assert FundIndex(st.funds, 1, 7) == Some(0);
    assert ContributionIndex(st.contributions, 2, 1) == Some(0);
  }

  /** Replacing a fund's balance does not move the lookup. */
  lemma FundIndexAfterUpdate(funds: seq<Fund>, i: nat, g: Fund, fundId: int, userId: int)
    requires FundIndex(funds, fundId, userId) == Some(i)
    requires g.id == funds[i].id && g.userId == funds[i].userId
    ensures FundIndex(funds[i := g], fundId, userId) == Some(i)
  {
    if i > 0 {
      assert funds[i := g][1..] == funds[1..][i - 1 := g];
      FundIndexAfterUpdate(funds[1..], i - 1, g, fundId, userId);
    }
  }

  // ---------------------------------------------------------------------
  // Reading contributions

  /** Latest first, by contribution date. */
  function ByDateDesc(): (Contribution, Contribution) -> bool
  {
    (a: Contribution, b: Contribution) => a.date >= b.date
  }

  lemma ByDateDescIsPreorder()
    ensures TotalPreorder(ByDateDesc())
  {
  }

  function OfFund(fundId: int): Contribution -> bool
  {
    (c: Contribution) => c.fundId == fundId
  }

  /** get_sinking_fund: the fund and the contributions it returns. With
      contributions included and a non-zero limit they are sorted latest
      first and cut to the limit (a negative limit drops that many from
      the end); otherwise they all come back in table order, since the
      response loads them either way. */
  function FundDetail(st: Store, userId: int, fundId: int, includeContributions: bool, limit: int)
    : (r: Result<(Fund, seq<Contribution>)>)
    ensures limit > MaxContributionLimit <==> r == Err(Invalid("contribution_limit"))
    ensures limit <= MaxContributionLimit && FundIndex(st.funds, fundId, userId).None? ==> r == Err(NotFound("Sinking fund"))
    ensures r.Ok? ==>
      FundIndex(st.funds, fundId, userId).Some?
      && r.value.0 == st.funds[FundIndex(st.funds, fundId, userId).value]
  {
    if limit > MaxContributionLimit then Err(Invalid("contribution_limit"))
    else match FundIndex(st.funds, fundId, userId)
      case None => Err(NotFound("Sinking fund"))
      case Some(i) =>
        var own := Filter(st.contributions, OfFund(fundId));
        if includeContributions && limit != 0 then Ok((st.funds[i], PySliceTo(SortBy(own, ByDateDesc()), limit)))
        else Ok((st.funds[i], own))
  }

  /** With a positive limit the detail holds the first `limit` of the
      fund's contributions latest first (all of them when there are no
      more than that). */
  lemma FundDetailSound(st: Store, userId: int, fundId: int, limit: int)
    requires 0 < limit && FundDetail(st, userId, fundId, true, limit).Ok?
    ensures var cs := FundDetail(st, userId, fundId, true, limit).value.1;
      var own := Filter(st.contributions, OfFund(fundId));
      |cs| == Min(limit, |own|) && cs == SortBy(own, ByDateDesc())[..|cs|]
      && SortedBy(cs, ByDateDesc())
      && multiset(cs) <= multiset(own)
      && (limit >= |own| ==> multiset(cs) == multiset(own))
  {
    var own := Filter(st.contributions, OfFund(fundId));
    var sorted := SortBy(own, ByDateDesc());
    SortByPermutes(own, ByDateDesc());
    ByDateDescIsPreorder();
    SortBySorted(own, ByDateDesc());
    var cs := PySliceTo(sorted, limit);
    var n := |cs|;
    assert cs == sorted[..n];
    assert sorted == cs + sorted[n..];
    assert multiset(sorted) == multiset(cs) + multiset(sorted[n..]);
  }

  /** list_contributions: an over-large limit or a negative offset is
      refused, a fund of someone else is not found, and otherwise the page
      is the fund's contributions latest first, after `offset` of them and
      at most `limit` long; with no offset and a limit that does not bind
      it holds every contribution of the fund. */
  function ListContributions(st: Store, userId: int, fundId: int, limit: int, offset: int)
    : (r: Result<seq<Contribution>>)
    ensures limit > MaxContributionLimit ==> r == Err(Invalid("limit"))
    ensures limit <= MaxContributionLimit && offset < 0 ==> r == Err(Invalid("offset"))
    ensures limit <= MaxContributionLimit && offset >= 0 ==>
      (r == Err(NotFound("Sinking fund")) <==> FundIndex(st.funds, fundId, userId).None?)
    ensures r.Ok? ==> FundIndex(st.funds, fundId, userId).Some? && limit <= MaxContributionLimit && offset >= 0
    ensures r.Ok? ==>
      var own := Filter(st.contributions, OfFund(fundId));
      SortedBy(r.value, ByDateDesc())
      && (forall c :: c in r.value ==> c in st.contributions && c.fundId == fundId)
      && (limit >= 0 && offset <= |own| ==> |r.value| == Min(limit, |own| - offset))
      && (limit < 0 && offset <= |own| ==> |r.value| == |own| - offset)
      && (offset >= |own| ==> r.value == [])
      && (offset <= |own| ==> r.value == SortBy(own, ByDateDesc())[offset..offset + |r.value|])
      && (offset == 0 && (limit < 0 || limit >= |own|) ==> multiset(r.value) == multiset(own))
  {
    if limit > MaxContributionLimit then Err(Invalid("limit"))
    else if offset < 0 then Err(Invalid("offset"))
    else if FundIndex(st.funds, fundId, userId).None? then Err(NotFound("Sinking fund"))
    else
      var own := Filter(st.contributions, OfFund(fundId));
      var page := Page(SortBy(own, ByDateDesc()), offset, limit);
      PageOfSorted(own, offset, limit);
      Ok(page)
  }

  /** A page of the sorted contributions is the run of them that starts
      at the offset, as long as their number less the offset, capped by
      the limit; it is sorted and lies inside them. */
  lemma PageOfSorted(own: seq<Contribution>, offset: int, limit: int)
    requires offset >= 0
    ensures var page := Page(SortBy(own, ByDateDesc()), offset, limit);
      SortedBy(page, ByDateDesc())
      && (forall c :: c in page ==> c in own)
      && (limit >= 0 && offset <= |own| ==> |page| == Min(limit, |own| - offset))
      && (limit < 0 && offset <= |own| ==> |page| == |own| - offset)
      && (offset >= |own| ==> page == [])
      && (offset <= |own| ==> page == SortBy(own, ByDateDesc())[offset..offset + |page|])
      && (offset == 0 && (limit < 0 || limit >= |own|) ==> multiset(page) == multiset(own))
  {
    var sorted := SortBy(own, ByDateDesc());
    SortByPermutes(own, ByDateDesc());
    ByDateDescIsPreorder();
    SortBySorted(own, ByDateDesc());
    SortedPage(sorted, offset, limit, ByDateDesc());
    var page := Page(sorted, offset, limit);
    forall c | c in page ensures c in own {
      assert c in multiset(sorted);
    }
  }

  // ---------------------------------------------------------------------
  // Creating, listing and updating funds

  /** The fields of a fund request that is set. The target date,
      description and colour may also be set to null: Some(None). */
  datatype FundUpdate = FundUpdate(
    name: Option<string>, targetCents: Option<int>, monthlyCents: Option<int>,
    targetDate: Option<Option<int>>, description: Option<Option<string>>, color: Option<Option<string>>,
    isActive: Option<bool>)

  /** One entry of the set fields, each assigned with setattr. */
  datatype FundField =
    | SetName(name: string) | SetTarget(cents: int) | SetMonthly(cents: int) | SetTargetDate(date: Option<int>)
    | SetDescription(text: Option<string>) | SetColor(value: Option<string>) | SetActive(active: bool)

  /** setattr of one field. */
  function SetField(f: Fund, v: FundField): Fund
  {
    match v
    case SetName(name) => Fund(f.id, f.userId, name, f.targetCents, f.balanceCents, f.monthlyCents, f.targetDate,
                               f.description, f.color, f.isActive, f.createdAt)
    case SetTarget(cents) => Fund(f.id, f.userId, f.name, cents, f.balanceCents, f.monthlyCents, f.targetDate,
                                  f.description, f.color, f.isActive, f.createdAt)
    case SetMonthly(cents) => Fund(f.id, f.userId, f.name, f.targetCents, f.balanceCents, cents, f.targetDate,
                                   f.description, f.color, f.isActive, f.createdAt)
    case SetTargetDate(date) => Fund(f.id, f.userId, f.name, f.targetCents, f.balanceCents, f.monthlyCents, date,
                                     f.description, f.color, f.isActive, f.createdAt)
    case SetDescription(text) => Fund(f.id, f.userId, f.name, f.targetCents, f.balanceCents, f.monthlyCents, f.targetDate,
                                      text, f.color, f.isActive, f.createdAt)
    case SetColor(value) => Fund(f.id, f.userId, f.name, f.targetCents, f.balanceCents, f.monthlyCents, f.targetDate,
                                 f.description, value, f.isActive, f.createdAt)
    case SetActive(active) => Fund(f.id, f.userId, f.name, f.targetCents, f.balanceCents, f.monthlyCents, f.targetDate,
                                   f.description, f.color, active, f.createdAt)
  }

  /** The entry of field k (in declaration order) when the request sets it. */
  function FieldEntry(u: FundUpdate, k: nat): (r: seq<FundField>)
    ensures |r| <= 1
  {
    if k == 0 then (if u.name.Some? then [SetName(u.name.value)] else [])
    else if k == 1 then (if u.targetCents.Some? then [SetTarget(u.targetCents.value)] else [])
    else if k == 2 then (if u.monthlyCents.Some? then [SetMonthly(u.monthlyCents.value)] else [])
    else if k == 3 then (if u.targetDate.Some? then [SetTargetDate(u.targetDate.value)] else [])
    else if k == 4 then (if u.description.Some? then [SetDescription(u.description.value)] else [])
    else if k == 5 then (if u.color.Some? then [SetColor(u.color.value)] else [])
    else if k == 6 then (if u.isActive.Some? then [SetActive(u.isActive.value)] else [])
    else []
  }

  /** The entries of the first k fields. */
  function DumpUpTo(u: FundUpdate, k: nat): (r: seq<FundField>)
    ensures |r| <= k
  {
    if k == 0 then [] else DumpUpTo(u, k - 1) + FieldEntry(u, k - 1)
  }

  /** model_dump(exclude_unset=True): the set fields in declaration order. */
  function SetFields(u: FundUpdate): (r: seq<FundField>)
    ensures |r| <= 7
  {
    DumpUpTo(u, 7)
  }

  /** The setattr loop as a fold. */
  function ApplyFields(f: Fund, vs: seq<FundField>): Fund
  {
    if vs == [] then f else SetField(ApplyFields(f, vs[..|vs| - 1]), vs[|vs| - 1])
  }

  /** The fund with every set field replaced and every other one kept. */
  function UpdatedFund(f: Fund, u: FundUpdate): Fund
  {
    Fund(f.id, f.userId,
         if u.name.Some? then u.name.value else f.name,
         if u.targetCents.Some? then u.targetCents.value else f.targetCents,
         f.balanceCents,
         if u.monthlyCents.Some? then u.monthlyCents.value else f.monthlyCents,
         if u.targetDate.Some? then u.targetDate.value else f.targetDate,
         if u.description.Some? then u.description.value else f.description,
         if u.color.Some? then u.color.value else f.color,
         if u.isActive.Some? then u.isActive.value else f.isActive,
         f.createdAt)
  }

  lemma {:induction false} ApplyFieldsAppend(f: Fund, vs: seq<FundField>, ws: seq<FundField>)
    ensures ApplyFields(f, vs + ws) == ApplyFields(ApplyFields(f, vs), ws)
  {
    if ws != [] {
      var m := |ws| - 1;
      assert (vs + ws)[..|vs + ws| - 1] == vs + ws[..m];
      assert (vs + ws)[|vs + ws| - 1] == ws[m];
      ApplyFieldsAppend(f, vs, ws[..m]);
      calc {
        ApplyFields(f, vs + ws);
        SetField(ApplyFields(f, vs + ws[..m]), ws[m]);
        SetField(ApplyFields(ApplyFields(f, vs), ws[..m]), ws[m]);
        ApplyFields(ApplyFields(f, vs), ws);
      }
    } else {
      assert vs + ws == vs;
    }
  }

  /** The fund once the first k fields of the request are applied. */
  function UpdatedUpTo(f: Fund, u: FundUpdate, k: nat): Fund
  {
    Fund(f.id, f.userId,
         if k > 0 && u.name.Some? then u.name.value else f.name,
         if k > 1 && u.targetCents.Some? then u.targetCents.value else f.targetCents,
         f.balanceCents,
         if k > 2 && u.monthlyCents.Some? then u.monthlyCents.value else f.monthlyCents,
         if k > 3 && u.targetDate.Some? then u.targetDate.value else f.targetDate,
         if k > 4 && u.description.Some? then u.description.value else f.description,
         if k > 5 && u.color.Some? then u.color.value else f.color,
         if k > 6 && u.isActive.Some? then u.isActive.value else f.isActive,
         f.createdAt)
  }

  lemma {:induction false} ApplyUpTo(f: Fund, u: FundUpdate, k: nat)
    requires k <= 7
    ensures ApplyFields(f, DumpUpTo(u, k)) == UpdatedUpTo(f, u, k)
  {
    if k > 0 {
      ApplyUpTo(f, u, k - 1);
      ApplyFieldsAppend(f, DumpUpTo(u, k - 1), FieldEntry(u, k - 1));
      UpToStep(f, u, k);
    }
  }

  /** The k-th field applied to the fund with the first k - 1 applied. */
  lemma UpToStep(f: Fund, u: FundUpdate, k: nat)
    requires 0 < k <= 7
    ensures ApplyFields(UpdatedUpTo(f, u, k - 1), FieldEntry(u, k - 1)) == UpdatedUpTo(f, u, k)
  {
    var g := ApplyOne(UpdatedUpTo(f, u, k - 1), FieldEntry(u, k - 1));
    if k == 1 {
    } else if k == 2 {
    } else if k == 3 {
    } else if k == 4 {
    } else if k == 5 {
    } else if k == 6 {
    }
  }

  /** Setting the dumped fields one by one changes exactly the fields the
      request set; the id, owner, balance and creation time never change. */
  lemma UpdateSetsOnlyGivenFields(f: Fund, u: FundUpdate)
    ensures ApplyFields(f, SetFields(u)) == UpdatedFund(f, u)
    ensures ApplyFields(f, SetFields(u)).id == f.id && ApplyFields(f, SetFields(u)).userId == f.userId
    ensures ApplyFields(f, SetFields(u)).balanceCents == f.balanceCents
    ensures ApplyFields(f, SetFields(u)).createdAt == f.createdAt
  {
    ApplyUpTo(f, u, 7);
  }

  /** Applying at most one set field. */
  lemma ApplyOne(f: Fund, vs: seq<FundField>) returns (g: Fund)
    requires |vs| <= 1
    ensures g == ApplyFields(f, vs)
    ensures vs == [] ==> g == f
    ensures vs != [] ==> g == SetField(f, vs[0])
  {
    g := ApplyFields(f, vs);
    if vs != [] {
      assert vs[..0] == [];
    }
  }

  /** The request's field constraints: a name of 1 to 255 characters and
      amounts of zero or more; None when they hold. */
  function FundFieldError(name: Option<string>, targetCents: Option<int>, monthlyCents: Option<int>): (r: Option<string>)
    ensures r.None? <==> (name.Some? ==> 1 <= |name.value| <= MaxNameLength)
                         && (targetCents.Some? ==> targetCents.value >= 0)
                         && (monthlyCents.Some? ==> monthlyCents.value >= 0)
  {
    if name.Some? && !(1 <= |name.value| <= MaxNameLength) then Some("name")
    else if targetCents.Some? && targetCents.value < 0 then Some("target_cents")
    else if monthlyCents.Some? && monthlyCents.value < 0 then Some("monthly_contribution_cents")
    else None
  }

  function ByCreatedDesc(): (Fund, Fund) -> bool
  {
    (a: Fund, b: Fund) => a.createdAt >= b.createdAt
  }

  function ListedFundOf(userId: int, includeInactive: bool): Fund -> bool
  {
    (f: Fund) => f.userId == userId && (includeInactive || f.isActive)
  }

  /** list_sinking_funds: the user's funds, active ones only unless asked,
      newest first. */
  function ListFunds(funds: seq<Fund>, userId: int, includeInactive: bool): seq<Fund>
  {
    SortBy(Filter(funds, ListedFundOf(userId, includeInactive)), ByCreatedDesc())
  }

  lemma ListFundsSound(funds: seq<Fund>, userId: int, includeInactive: bool)
    ensures forall f :: f in ListFunds(funds, userId, includeInactive) <==>
      f in funds && f.userId == userId && (includeInactive || f.isActive)
    ensures SortedBy(ListFunds(funds, userId, includeInactive), ByCreatedDesc())
  {
    var own := Filter(funds, ListedFundOf(userId, includeInactive));
    SortByPermutes(own, ByCreatedDesc());
    SortBySorted(own, ByCreatedDesc());
    forall f ensures f in ListFunds(funds, userId, includeInactive) <==> f in own {
      assert f in multiset(ListFunds(funds, userId, includeInactive)) <==> f in multiset(own);
    }
    forall f | f in funds && f.userId == userId && (includeInactive || f.isActive) ensures f in own {
      FilterKeeps(funds, ListedFundOf(userId, includeInactive), f);
    }
  }

  // ---------------------------------------------------------------------
  // The tables as mutable state

  class FundDb {
    var funds: seq<Fund>
    var contributions: seq<Contribution>
    var nextId: int

    ghost function State(): Store
      reads this
    {
      Store(funds, contributions, nextId)
    }

    ghost predicate Valid()
      reads this
    {
      IdsBelow(State())
    }

    constructor ()
      ensures Valid() && funds == [] && contributions == []
    {
      funds, contributions, nextId := [], [], 1;
    }
  }

  /** create_sinking_fund; a new fund has nothing saved and is active. */
  method CreateFund(db: FundDb, userId: int, name: string, targetCents: int, monthlyCents: int,
                    targetDate: Option<int>, description: Option<string>, color: Option<string>, now: int)
    returns (r: Result<Fund>)
    requires db.Valid()
    modifies db
    ensures db.Valid()
    ensures FundFieldError(Some(name), Some(targetCents), Some(monthlyCents)).Some? ==>
      r == Err(Invalid(FundFieldError(Some(name), Some(targetCents), Some(monthlyCents)).value))
      && db.State() == old(db.State())
    ensures FundFieldError(Some(name), Some(targetCents), Some(monthlyCents)).None? ==>
      var f := Fund(old(db.nextId), userId, name, targetCents, 0, monthlyCents, targetDate, description, color, true, now);
      r == Ok(f) && db.funds == old(db.funds) + [f] && db.contributions == old(db.contributions)
      && db.nextId == old(db.nextId) + 1
  {
    var error := FundFieldError(Some(name), Some(targetCents), Some(monthlyCents));
    if error.Some? {
      return Err(Invalid(error.value));
    }
    var f := Fund(db.nextId, userId, name, targetCents, 0, monthlyCents, targetDate, description, color, true, now);
    db.funds := db.funds + [f];
    db.nextId := db.nextId + 1;
    return Ok(f);
  }

  /** update_sinking_fund: the set fields are assigned one at a time. */
  method UpdateFund(db: FundDb, userId: int, fundId: int, u: FundUpdate) returns (r: Result<Fund>)
    requires db.Valid()
    modifies db
    ensures db.Valid()
    ensures FundFieldError(u.name, u.targetCents, u.monthlyCents).Some? ==>
      r == Err(Invalid(FundFieldError(u.name, u.targetCents, u.monthlyCents).value)) && db.State() == old(db.State())
    ensures FundFieldError(u.name, u.targetCents, u.monthlyCents).None? && FundIndex(old(db.funds), fundId, userId).None? ==>
      r == Err(NotFound("Sinking fund")) && db.State() == old(db.State())
    ensures FundFieldError(u.name, u.targetCents, u.monthlyCents).None? && FundIndex(old(db.funds), fundId, userId).Some? ==>
      var i := FundIndex(old(db.funds), fundId, userId).value;
      r == Ok(UpdatedFund(old(db.funds)[i], u)) && db.funds == old(db.funds)[i := UpdatedFund(old(db.funds)[i], u)]
      && db.contributions == old(db.contributions) && db.nextId == old(db.nextId)
  {
    var error := FundFieldError(u.name, u.targetCents, u.monthlyCents);
    if error.Some? {
      return Err(Invalid(error.value));
    }
    var found := FundIndex(db.funds, fundId, userId);
    if found.None? {
      return Err(NotFound("Sinking fund"));
    }
    var i := found.value;
    var f := db.funds[i];
    var fields := SetFields(u);
    for k := 0 to |fields|
      invariant f == ApplyFields(db.funds[i], fields[..k])
    {
      assert fields[..k + 1][..k] == fields[..k];
      f := SetField(f, fields[k]);
    }
    assert fields[..|fields|] == fields;
    UpdateSetsOnlyGivenFields(db.funds[i], u);
    db.funds := db.funds[i := f];
    return Ok(f);
  }

  /** add_contribution against the tables. */
  method AddContributionTo(db: FundDb, userId: int, fundId: int, amountCents: int, date: Option<int>, now: int,
                           notes: Option<string>) returns (r: Result<Contribution>)
    requires db.Valid()
    modifies db
    ensures db.Valid()
    ensures match AddContribution(old(db.State()), userId, fundId, amountCents, date, now, notes)
      case Err(e) => r == Err(e) && db.State() == old(db.State())
      case Ok(st) => db.State() == st && r.Ok? && r.value == st.contributions[|st.contributions| - 1]
  {
    var found := FundIndex(db.funds, fundId, userId);
    if found.None? {
      return Err(NotFound("Sinking fund"));
    }
    var i := found.value;
    var c := Contribution(db.nextId, fundId, amountCents, if date.Some? then date.value else now, notes);
    var f := db.funds[i];
    f := f.(balanceCents := f.balanceCents + amountCents);
    if f.balanceCents < 0 {
      return Err(NegativeBalance);
    }
    db.funds := db.funds[i := f];
    db.contributions := db.contributions + [c];
    db.nextId := db.nextId + 1;
    return Ok(c);
  }

  /** delete_contribution against the tables. */
  method DeleteContributionFrom(db: FundDb, userId: int, fundId: int, contributionId: int) returns (r: Result<()>)
    requires db.Valid()
    modifies db
    ensures db.Valid()
    ensures match DeleteContribution(old(db.State()), userId, fundId, contributionId)
      case Err(e) => r == Err(e) && db.State() == old(db.State())
      case Ok(st) => r == Ok(()) && db.State() == st
  {
    var found := FundIndex(db.funds, fundId, userId);
    if found.None? {
      return Err(NotFound("Sinking fund"));
    }
    var i := found.value;
    var hit := ContributionIndex(db.contributions, contributionId, fundId);
    if hit.None? {
      return Err(NotFound("Contribution"));
    }
    var j := hit.value;
    var f := db.funds[i];
    f := f.(balanceCents := f.balanceCents - db.contributions[j].amountCents);
    db.funds := db.funds[i := f];
    ghost var before := db.contributions;
    db.contributions := db.contributions[..j] + db.contributions[j + 1..];
    forall k | 0 <= k < |db.contributions| ensures db.contributions[k].id < db.nextId {
      if k < j { assert db.contributions[k] == before[k]; } else { assert db.contributions[k] == before[k + 1]; }
    }
    return Ok(());
  }

  /** delete_sinking_fund: the fund goes and its contributions with it. */
  method DeleteFund(db: FundDb, userId: int, fundId: int) returns (r: Result<()>)
    requires db.Valid()
    modifies db
    ensures db.Valid()
    ensures FundIndex(old(db.funds), fundId, userId).None? ==> r == Err(NotFound("Sinking fund")) && db.State() == old(db.State())
    ensures FundIndex(old(db.funds), fundId, userId).Some? ==>
      var i := FundIndex(old(db.funds), fundId, userId).value;
      r == Ok(()) && db.funds == old(db.funds)[..i] + old(db.funds)[i + 1..]
      && db.contributions == Filter(old(db.contributions), (c: Contribution) => c.fundId != fundId)
      && db.nextId == old(db.nextId)
  {
    var found := FundIndex(db.funds, fundId, userId);
    if found.None? {
      return Err(NotFound("Sinking fund"));
    }
    var i := found.value;
    ghost var before := db.funds;
    ghost var cs := db.contributions;
    db.funds := db.funds[..i] + db.funds[i + 1..];
    db.contributions := Filter(db.contributions, (c: Contribution) => c.fundId != fundId);
    forall k | 0 <= k < |db.funds| ensures db.funds[k].id < db.nextId {
      if k < i { assert db.funds[k] == before[k]; } else { assert db.funds[k] == before[k + 1]; }
    }
    forall k | 0 <= k < |db.contributions| ensures db.contributions[k].id < db.nextId {
      assert db.contributions[k] in cs;
    }
    return Ok(());
  }
}
