/** The sinking-fund helpers of the web client: progress and months to
    target, the colour bands of a progress percentage, the form check
    and the list sort. Numbers are exact (the client's are doubles). */
module FundUtils {
  import opened Common
  import opened Sorting
  import opened SinkingFunds

  // ---------------------------------------------------------------------
  // Progress and months to target

  /** calculateProgress: the balance as a percentage of the target,
      capped at 100; 0 for a zero target. */
  function CalculateProgress(currentCents: int, targetCents: int): (r: real)
    ensures r <= 100.0
    ensures targetCents == 0 ==> r == 0.0
    ensures targetCents > 0 ==> (r == 100.0 <==> currentCents >= targetCents)
    ensures targetCents > 0 && currentCents >= 0 ==> r >= 0.0
  {
    if targetCents == 0 then 0.0
    else
      var p := currentCents as real / targetCents as real * 100.0;
      if p <= 100.0 then p else 100.0
  }

  /** Below the target, the percentage is exact. */
  lemma ProgressBelowTarget(currentCents: int, targetCents: int)
    requires 0 <= currentCents < targetCents
    ensures CalculateProgress(currentCents, targetCents) * targetCents as real == currentCents as real * 100.0
  {
  }

  /** `Math.ceil(a / b)` for a non-zero divisor. */
  function CeilDiv(a: int, b: int): (q: int)
    requires b != 0
    ensures b > 0 ==> b * q - b < a <= b * q
    ensures b < 0 ==> b * q <= a < b * q - b
  {
    if b > 0 then (if a % b == 0 then a / b else a / b + 1)
    else -(a / (-b))
  }

  /** calculateMonthsToTarget: none without a contribution or with nothing
      left to save, otherwise the remaining amount over the contribution
      rounded up. */
  function MonthsToTarget(remainingCents: int, monthlyCents: int): (r: Option<int>)
    ensures r.None? <==> monthlyCents == 0 || remainingCents <= 0
  {
    if monthlyCents == 0 || remainingCents <= 0 then None else Some(CeilDiv(remainingCents, monthlyCents))
  }

  /** With a positive contribution the answer is the least number of
      months whose contributions cover what is left. */
  lemma MonthsToTargetLeast(remainingCents: int, monthlyCents: int, m: int)
    requires remainingCents > 0 && monthlyCents > 0
    ensures var r := MonthsToTarget(remainingCents, monthlyCents);
      r.Some? && r.value >= 1 && r.value * monthlyCents >= remainingCents
      && (m < r.value ==> m * monthlyCents < remainingCents)
  {
    var q := CeilDiv(remainingCents, monthlyCents);
    if m < q {
      assert m * monthlyCents <= (q - 1) * monthlyCents;
    }
  }

  // ---------------------------------------------------------------------
  // Colour bands

  /** How many of the thresholds 25, 50, 75 and 100 the percentage reaches. */
  function ProgressBand(percentage: real): (r: nat)
    ensures r <= 4
    ensures r >= 1 <==> percentage >= 25.0
    ensures r >= 2 <==> percentage >= 50.0
    ensures r >= 3 <==> percentage >= 75.0
    ensures r == 4 <==> percentage >= 100.0
  {
    (if percentage >= 25.0 then 1 else 0) + (if percentage >= 50.0 then 1 else 0)
    + (if percentage >= 75.0 then 1 else 0) + (if percentage >= 100.0 then 1 else 0)
  }

  /** A higher percentage never falls into a lower band. */
  lemma ProgressBandMonotone(p: real, q: real)
    requires p <= q
    ensures ProgressBand(p) <= ProgressBand(q)
  {
  }

  const TextColors: seq<string> := ["text-red-600", "text-orange-600", "text-yellow-600", "text-blue-600", "text-green-600"]
  const BarColors: seq<string> := ["bg-red-500", "bg-orange-500", "bg-yellow-500", "bg-blue-500", "bg-green-500"]

  /** getProgressColor */
  function ProgressColor(percentage: real): (r: string)
    ensures r == TextColors[ProgressBand(percentage)]
  {
    if percentage >= 100.0 then "text-green-600"
    else if percentage >= 75.0 then "text-blue-600"
    else if percentage >= 50.0 then "text-yellow-600"
    else if percentage >= 25.0 then "text-orange-600"
    else "text-red-600"
  }

  /** getProgressBarColor */
  function ProgressBarColor(percentage: real): (r: string)
    ensures r == BarColors[ProgressBand(percentage)]
  {
    if percentage >= 100.0 then "bg-green-500"
    else if percentage >= 75.0 then "bg-blue-500"
    else if percentage >= 50.0 then "bg-yellow-500"
    else if percentage >= 25.0 then "bg-orange-500"
    else "bg-red-500"
  }

  // ---------------------------------------------------------------------
  // Form check

  /** The fields of a fund form that the check reads; a field left out
      of the form is None. */
  datatype FundDraft = FundDraft(name: Option<string>, targetCents: Option<int>, monthlyCents: Option<int>)

  /** The checks, in the order they run. */
  datatype FundCheck = NameRequired | NameTooLong | TargetNotPositive | MonthlyNegative

  /** The position of a check in the run. */
  function Rank(c: FundCheck): nat
  {
    match c
    case NameRequired => 0
    case NameTooLong => 1
    case TargetNotPositive => 2
    case MonthlyNegative => 3
  }

  function FundMessage(c: FundCheck): string
  {
    match c
    case NameRequired => "Fund name is required"
    case NameTooLong => "Fund name must be less than 255 characters"
    case TargetNotPositive => "Target amount must be greater than 0"
    case MonthlyNegative => "Monthly contribution cannot be negative"
  }

  function FundMessages(cs: seq<FundCheck>): (r: seq<string>)
    ensures |r| == |cs|
    ensures forall i :: 0 <= i < |cs| ==> r[i] == FundMessage(cs[i])
  {
    if cs == [] then [] else FundMessages(cs[..|cs| - 1]) + [FundMessage(cs[|cs| - 1])]
  }

  lemma FundMessagesSnoc(cs: seq<FundCheck>, c: FundCheck)
    ensures FundMessages(cs + [c]) == FundMessages(cs) + [FundMessage(c)]
  {
    assert (cs + [c])[..|cs|] == cs;
  }

  /** A missing or empty name is falsy; one of white space trims to nothing. */
  predicate NameMissing(name: Option<string>)
  {
    name.None? || JsBlank(name.value)
  }

  /** The check fails on the draft. */
  predicate Fails(fund: FundDraft, c: FundCheck)
  {
    match c
    case NameRequired => NameMissing(fund.name)
    case NameTooLong => fund.name.Some? && |fund.name.value| > MaxNameLength
    case TargetNotPositive => fund.targetCents.None? || fund.targetCents.value <= 0
    case MonthlyNegative => fund.monthlyCents.Some? && fund.monthlyCents.value < 0
  }

  /** What the backend would accept of these fields. */
  predicate FundValid(fund: FundDraft)
  {
    fund.name.Some? && !JsBlank(fund.name.value) && |fund.name.value| <= MaxNameLength
    && fund.targetCents.Some? && fund.targetCents.value > 0
    && (fund.monthlyCents.None? || fund.monthlyCents.value >= 0)
  }

  function IfFails(fund: FundDraft, c: FundCheck): seq<FundCheck>
  {
    if Fails(fund, c) then [c] else []
  }

  /** The checks that fail, in the order they run. */
  function FailedChecks(fund: FundDraft): (r: seq<FundCheck>)
    ensures forall c :: c in r <==> Fails(fund, c)
  {
    IfFails(fund, NameRequired) + IfFails(fund, NameTooLong)
    + IfFails(fund, TargetNotPositive) + IfFails(fund, MonthlyNegative)
  }

  /** validateFund: each failed check pushes its message. */
  method ValidateFund(fund: FundDraft) returns (errors: seq<string>)
    ensures errors == FundMessages(FailedChecks(fund))
  {
    errors := [];
    if fund.name.None? || fund.name.value == "" || JsBlank(fund.name.value) {
      errors := errors + [FundMessage(NameRequired)];
    }
    ghost var e1 := errors;
    assert e1 == MessageIfFails(fund, NameRequired);
    if fund.name.Some? && fund.name.value != "" && |fund.name.value| > 255 {
      errors := errors + [FundMessage(NameTooLong)];
    }
    ghost var e2 := errors;
    assert e2 == e1 + MessageIfFails(fund, NameTooLong);
    if fund.targetCents.None? || fund.targetCents.value <= 0 {
      errors := errors + [FundMessage(TargetNotPositive)];
    }
    ghost var e3 := errors;
    assert e3 == e2 + MessageIfFails(fund, TargetNotPositive);
    if fund.monthlyCents.Some? && fund.monthlyCents.value < 0 {
      errors := errors + [FundMessage(MonthlyNegative)];
    }
    assert errors == e3 + MessageIfFails(fund, MonthlyNegative);
    FundMessagesOfFailed(fund);
  }

  lemma {:induction false} FundMessagesAppend(a: seq<FundCheck>, b: seq<FundCheck>)
    ensures FundMessages(a + b) == FundMessages(a) + FundMessages(b)
  {
    if b != [] {
      var init, c := b[..|b| - 1], b[|b| - 1];
      assert b == init + [c];
      assert a + b == (a + init) + [c];
      FundMessagesAppend(a, init);
    } else {
      assert a + b == a;
    }
  }

  /** The message of one check when it fails. */
  function MessageIfFails(fund: FundDraft, c: FundCheck): seq<string>
  {
    if Fails(fund, c) then [FundMessage(c)] else []
  }

  lemma MessagesOfIfFails(fund: FundDraft, c: FundCheck)
    ensures FundMessages(IfFails(fund, c)) == MessageIfFails(fund, c)
  {
    if Fails(fund, c) {
      assert IfFails(fund, c)[..0] == [];
    }
  }

  /** The messages of the failed checks, check by check. */
  lemma FundMessagesOfFailed(fund: FundDraft)
    ensures FundMessages(FailedChecks(fund))
            == MessageIfFails(fund, NameRequired) + MessageIfFails(fund, NameTooLong)
               + MessageIfFails(fund, TargetNotPositive) + MessageIfFails(fund, MonthlyNegative)
  {
    var a, b, c, d := IfFails(fund, NameRequired), IfFails(fund, NameTooLong),
                      IfFails(fund, TargetNotPositive), IfFails(fund, MonthlyNegative);
    FundMessagesAppend(a + b + c, d);
    FundMessagesAppend(a + b, c);
    FundMessagesAppend(a, b);
    MessagesOfIfFails(fund, NameRequired);
    MessagesOfIfFails(fund, NameTooLong);
    MessagesOfIfFails(fund, TargetNotPositive);
    MessagesOfIfFails(fund, MonthlyNegative);
  }

  /** No message exactly when the fields are valid, and the failed checks
      report in the order they run. */
  lemma FailedChecksSound(fund: FundDraft)
    ensures FailedChecks(fund) == [] <==> FundValid(fund)
    ensures forall i, j :: 0 <= i < j < |FailedChecks(fund)| ==> Rank(FailedChecks(fund)[i]) < Rank(FailedChecks(fund)[j])
  {
    NoneFailedValid(fund);
    FailedChecksRanked(fund);
  }

  lemma NoneFailedValid(fund: FundDraft)
    ensures FailedChecks(fund) == [] <==> FundValid(fund)
  {
    if FailedChecks(fund) == [] {
      assert !Fails(fund, NameRequired) && !Fails(fund, NameTooLong);
    }
  }

  lemma FailedChecksRanked(fund: FundDraft)
    ensures Ranked(FailedChecks(fund))
  {
    var f1, f2, f3, f4 := Fails(fund, NameRequired), Fails(fund, NameTooLong),
                          Fails(fund, TargetNotPositive), Fails(fund, MonthlyNegative);
    assert FailedChecks(fund) == Flagged(f1, f2, f3, f4);
    FlaggedRanked(f1, f2, f3, f4);
  }

  /** The checks whose flags are set, in run order. */
  function Flagged(f1: bool, f2: bool, f3: bool, f4: bool): seq<FundCheck>
  {
    (if f1 then [NameRequired] else []) + (if f2 then [NameTooLong] else [])
    + (if f3 then [TargetNotPositive] else []) + (if f4 then [MonthlyNegative] else [])
  }

  lemma FlaggedRanked(f1: bool, f2: bool, f3: bool, f4: bool)
    ensures Ranked(Flagged(f1, f2, f3, f4))
  {
    var a := if f1 then [NameRequired] else [];
    RankedSnocIf(a, NameTooLong, f2);
    var b := a + (if f2 then [NameTooLong] else []);
    RankedSnocIf(b, TargetNotPositive, f3);
    var c := b + (if f3 then [TargetNotPositive] else []);
    RankedSnocIf(c, MonthlyNegative, f4);
  }

  /** Checks listed in strictly increasing run order. */
  ghost predicate Ranked(r: seq<FundCheck>)
  {
    forall i, j :: 0 <= i < j < |r| ==> Rank(r[i]) < Rank(r[j])
  }

  ghost predicate RanksBelow(r: seq<FundCheck>, n: nat)
  {
    forall i :: 0 <= i < |r| ==> Rank(r[i]) < n
  }

  lemma RankedSnocIf(r: seq<FundCheck>, c: FundCheck, f: bool)
    requires Ranked(r) && RanksBelow(r, Rank(c))
    ensures var t := r + (if f then [c] else []); Ranked(t) && RanksBelow(t, Rank(c) + 1)
  {
  }

  /** A name of nothing but white space is reported first, as missing. */
  lemma BlankNameRequired(fund: FundDraft)
    requires fund.name.Some? && JsBlank(fund.name.value)
    ensures |FailedChecks(fund)| >= 1 && FailedChecks(fund)[0] == NameRequired
  {
    assert Fails(fund, NameRequired);
  }

  // ---------------------------------------------------------------------
  // Sorting

  datatype FundSortKey = ByName | ByProgress | ByTarget | ByCreated

  /** A double that the progress key can take: `x / 0` is an infinity,
      `0 / 0` is NaN. */
  datatype Ratio = Finite(value: real) | PlusInfinity | MinusInfinity | NotANumber

  /** IEEE `<`: every comparison with NaN is false. */
  predicate RatioLess(a: Ratio, b: Ratio)
  {
    match a
    case NotANumber => false
    case PlusInfinity => false
    case MinusInfinity => b.Finite? || b.PlusInfinity?
    case Finite(x) => b.PlusInfinity? || (b.Finite? && x < b.value)
  }

  /** `(current_balance_cents / target_cents) * 100` */
  function ProgressKey(f: Fund): Ratio
  {
    if f.targetCents != 0 then Finite(f.balanceCents as real / f.targetCents as real * 100.0)
    else if f.balanceCents > 0 then PlusInfinity
    else if f.balanceCents < 0 then MinusInfinity
    else NotANumber
  }

  function NameKey(f: Fund): string { Lower(f.name) }
  function TargetKey(f: Fund): int { f.targetCents }
  function CreatedKey(f: Fund): int { f.createdAt }

  /** The comparator sortFunds hands to Array.prototype.sort. */
  function FundLe(sortBy: FundSortKey, descending: bool): (Fund, Fund) -> bool
  {
    match sortBy
    case ByName => KeyLe(NameKey, LexLess, descending)
    case ByProgress => KeyLe(ProgressKey, RatioLess, descending)
    case ByTarget => KeyLe(TargetKey, IntLess, descending)
    case ByCreated => KeyLe(CreatedKey, IntLess, descending)
  }

  /** sortFunds: a sorted copy; the input stays as it was. */
  method SortFunds(funds: seq<Fund>, sortBy: FundSortKey, descending: bool) returns (r: seq<Fund>)
    ensures r == SortBy(funds, FundLe(sortBy, descending))
  {
    r := SortedCopy(funds, FundLe(sortBy, descending));
  }

  /** `<` on doubles with NaN placed above everything: a strict total
      order that agrees with IEEE `<` away from NaN. */
  predicate RatioLessNaNLast(a: Ratio, b: Ratio)
  {
    if a.NotANumber? then false else if b.NotANumber? then true else RatioLess(a, b)
  }

  lemma RatioLessNaNLastIsStrictTotal()
    ensures StrictTotalOrder(RatioLessNaNLast)
  {
  }

  /** The copy holds the same funds; unless a fund with no balance and no
      target makes a progress key NaN, it is ordered by the chosen key,
      ascending or descending when flagged. */
  lemma SortFundsSound(funds: seq<Fund>, sortBy: FundSortKey, descending: bool)
    requires sortBy == ByProgress ==> forall f :: f in funds ==> !ProgressKey(f).NotANumber?
    ensures var r := SortBy(funds, FundLe(sortBy, descending));
      multiset(r) == multiset(funds) && SortedBy(r, FundLe(sortBy, descending))
  {
    var le := FundLe(sortBy, descending);
    var r := SortBy(funds, le);
    SortByPermutes(funds, le);
    match sortBy {
      case ByName =>
        LexLessIsStrictTotal();
        KeyLeIsPreorder(NameKey, LexLess, descending);
        SortBySorted(funds, le);
      case ByTarget =>
        KeyLeIsPreorder(TargetKey, IntLess, descending);
        SortBySorted(funds, le);
      case ByCreated =>
        KeyLeIsPreorder(CreatedKey, IntLess, descending);
        SortBySorted(funds, le);
      case ByProgress =>
        var le2 := KeyLe(ProgressKey, RatioLessNaNLast, descending);
        RatioLessNaNLastIsStrictTotal();
        KeyLeIsPreorder(ProgressKey, RatioLessNaNLast, descending);
        SortBySorted(funds, le2);
        SortByAgrees(funds, le, le2);
        forall i, j | 0 <= i < j < |r| ensures le(r[i], r[j]) {
          assert r[i] in multiset(funds) && r[j] in multiset(funds);
          assert le2(r[i], r[j]);
        }
    }
  }
}
