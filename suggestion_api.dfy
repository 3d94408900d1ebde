/** The three handlers of the category suggestion API: `/suggest` (limit
    between 1 and 10, the budget must be the caller's), `/feedback` (log
    the feedback, then learn from the category actually chosen) and
    `/stats` (a window of 1 to 365 days back from now). The clock is a
    parameter, in seconds. */
module SuggestionApi {
  import opened Common
  import opened SuggestionText
  import opened SuggestionStore
  import opened SuggestionEngine
  import opened BudgetDb

  const MaxLimit := 10
  const MaxDays := 365
  const SecondsPerDay := 86400

  /** The answer of `/suggest`. */
  function SuggestResponse(ps: seq<Pattern>, budgets: seq<Budget>, cats: seq<BudgetCategory>,
                           txs: seq<Transaction>, userId: int, budgetId: int, notes: string,
                           amount: Option<int>, limit: int): Result<seq<Suggestion>>
  {
    if !(1 <= limit <= MaxLimit) then Err(Invalid("limit"))
    else if OwnedBudget(budgets, budgetId, userId).None? then Err(NotFound("Budget"))
    else Ok(Suggestions(ps, cats, txs, userId, budgetId, notes, amount, limit))
  }

  /** get_category_suggestions */
  method Suggest(store: PatternStore, db: Db, userId: int, budgetId: int, notes: string,
                 amount: Option<int>, limit: int) returns (r: Result<seq<Suggestion>>)
    ensures r == SuggestResponse(store.patterns, db.budgets, db.categories, db.transactions,
                                 userId, budgetId, notes, amount, limit)
  {
    if !(1 <= limit <= MaxLimit) {
      return Err(Invalid("limit"));
    }
    if OwnedBudget(db.budgets, budgetId, userId).None? {
      return Err(NotFound("Budget"));
    }
    var s := GetSuggestions(store.patterns, db.categories, db.transactions, userId, budgetId, notes, amount, limit);
    return Ok(s);
  }

  /** A limit outside 1..10 is refused and a budget of someone else is not
      found; otherwise the answer has at most `limit` suggestions, all
      naming eligible categories of that budget. */
  lemma SuggestResponseSound(ps: seq<Pattern>, budgets: seq<Budget>, cats: seq<BudgetCategory>,
                             txs: seq<Transaction>, userId: int, budgetId: int, notes: string,
                             amount: Option<int>, limit: int)
    ensures var r := SuggestResponse(ps, budgets, cats, txs, userId, budgetId, notes, amount, limit);
      (r == Err(Invalid("limit")) <==> !(1 <= limit <= MaxLimit))
      && (r == Err(NotFound("Budget")) <==>
            1 <= limit <= MaxLimit && forall b :: b in budgets ==> !(b.id == budgetId && b.userId == userId))
      && (r.Ok? ==> |r.value| <= limit && AllOffered(cats, budgetId, r.value)
                    && exists b :: b in budgets && b.id == budgetId && b.userId == userId)
  {
    if 1 <= limit <= MaxLimit {
      SuggestionsSound(ps, cats, txs, userId, budgetId, notes, amount, limit);
      var o := OwnedBudget(budgets, budgetId, userId);
      if o.Some? {
        assert o.value in budgets;
      }
    }
  }

  /** submit_suggestion_feedback */
  method SubmitFeedback(store: PatternStore, userId: int, suggested: int, actual: int, text: string,
                        transactionId: Option<int>, now: int)
    requires store.Valid()
    modifies store
    ensures store.Valid()
    ensures store.logs == old(store.logs) + [FeedbackLog(userId, transactionId, suggested, actual, text, now)]
    ensures store.patterns == Learned(Penalized(old(store.patterns), userId, suggested, actual, text),
                                      userId, actual, text, now)
  {
    PenaltyKeepsValid(store.patterns, userId, suggested, actual, text);
    store.LogFeedback(userId, suggested, actual, text, transactionId, now);
    LearnKeepsValid(store.patterns, userId, actual, text, now);
    store.Learn(userId, actual, text, now);
  }

  /** What one feedback does to the user's pattern for the text: a
      pattern seen before gets one more use and the category actually
      chosen, with confidence up a tenth if that was already its category
      and 0.5 otherwise, so the penalty for a rejected suggestion is
      overwritten at once; an unseen text gets a new pattern at 0.7. No
      other pattern changes. */
  lemma FeedbackEffect(ps: seq<Pattern>, userId: int, suggested: int, actual: int, text: string, now: int)
    requires KeysUnique(ps) && ConfidenceInRange(ps) && !Blank(text)
    ensures FeedbackOutcome(ps, Learned(Penalized(ps, userId, suggested, actual, text), userId, actual, text, now),
                            userId, actual, Normalize(text), now)
  {
    var key := Normalize(text);
    var q := Penalized(ps, userId, suggested, actual, text);
    PenaltyKeepsValid(ps, userId, suggested, actual, text);
    match FindPattern(ps, userId, key)
    case Some(i) =>
      var j := FindPatternFor(ps, userId, suggested, key);
      if suggested != actual && j.Some? {
        assert j.value == i;
        PenaltyRejected(ps, userId, suggested, actual, text, i);
      }
      assert |q| == |ps| && q[i].userId == ps[i].userId && q[i].text == ps[i].text
             && q[i].usage == ps[i].usage && q[i].categoryId == ps[i].categoryId;
      assert ps[i].categoryId == actual ==> q[i].confidence == ps[i].confidence;
      LearnExisting(q, userId, actual, text, now, i);
    case None =>
      assert q == ps;
      LearnNew(ps, userId, actual, text, now);
  }

  /** `after` is `ps` after feedback choosing `actual` for the text `key`. */
  ghost predicate FeedbackOutcome(ps: seq<Pattern>, after: seq<Pattern>, userId: int, actual: int,
                                  key: string, now: int)
  {
    match FindPattern(ps, userId, key)
    case Some(i) =>
      |after| == |ps|
      && after[i] == ps[i].(usage := ps[i].usage + 1, lastUsed := now, categoryId := actual,
                            confidence := if ps[i].categoryId == actual then Min(10, ps[i].confidence + 1) else 5)
      && forall k :: 0 <= k < |ps| && k != i ==> after[k] == ps[k]
    case None =>
      after == ps + [Pattern(userId, actual, key, 7, 1, now)]
  }

  /** The answer of `/stats`. */
  function StatsResponse(logs: seq<SuggestionLog>, userId: int, days: int, now: int): Result<SuggestionStats>
  {
    if !(1 <= days <= MaxDays) then Err(Invalid("days"))
    else Ok(Stats(logs, userId, now - days * SecondsPerDay))
  }

  /** get_suggestion_statistics */
  method SuggestionStatistics(store: PatternStore, userId: int, days: int, now: int)
    returns (r: Result<SuggestionStats>)
    ensures r == StatsResponse(store.logs, userId, days, now)
  {
    if !(1 <= days <= MaxDays) {
      return Err(Invalid("days"));
    }
    return Ok(Stats(store.logs, userId, now - days * SecondsPerDay));
  }

  /** A window outside 1..365 days is refused; otherwise the statistics
      count exactly the user's feedback in the window. */
  lemma StatsResponseSound(logs: seq<SuggestionLog>, userId: int, days: int, now: int)
    ensures StatsResponse(logs, userId, days, now).Err? <==> !(1 <= days <= MaxDays)
    ensures 1 <= days <= MaxDays ==>
      StatsResponse(logs, userId, days, now).value.total
        == CountOf(logs, InWindowOf(userId, now - days * SecondsPerDay))
  {
    if 1 <= days <= MaxDays {
      StatsConsistent(logs, userId, now - days * SecondsPerDay);
    }
  }

  /** Widening the window (an earlier `since`) never lowers the count. */
  lemma {:induction false} WindowGrows(logs: seq<SuggestionLog>, userId: int, since1: int, since2: int)
    requires since2 <= since1
    ensures CountOf(logs, InWindowOf(userId, since1)) <= CountOf(logs, InWindowOf(userId, since2))
  {
    if logs != [] {
      WindowGrows(logs[..|logs| - 1], userId, since1, since2);
    }
  }
}
