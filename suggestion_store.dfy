/** The learning half of the category suggestion service: the table of
    learned patterns (one per user and normalized note) that
    `learn_from_transaction` reinforces or redirects and
    `log_suggestion_feedback` penalises, the feedback log, and the
    acceptance statistics over that log.

    Confidence is kept in tenths (7 is 0.7): every rule of the service
    moves it by whole tenths between 0.1 and 1.0. */
module SuggestionStore {
  import opened Common
  import opened SuggestionText

  datatype Pattern = Pattern(
    userId: int, categoryId: int, text: string,
    confidence: int, usage: nat, lastUsed: int)

  /** One feedback event; `accepted` is the stored integer 1 or 0. */
  datatype SuggestionLog = SuggestionLog(
    userId: int, transactionId: Option<int>, suggested: int, actual: int,
    text: string, accepted: int, createdAt: int)

  /** No two patterns of one user share a text. */
  ghost predicate KeysUnique(ps: seq<Pattern>)
  {
    forall i, j :: 0 <= i < j < |ps| ==> !(ps[i].userId == ps[j].userId && ps[i].text == ps[j].text)
  }

  ghost predicate ConfidenceInRange(ps: seq<Pattern>)
  {
    forall i :: 0 <= i < |ps| ==> 1 <= ps[i].confidence <= 10
  }

  predicate Matches(p: Pattern, userId: int, text: string)
  {
    p.userId == userId && p.text == text
  }

  /** Index of the first pattern of the user with this text (`.first()`). */
  function FindPattern(ps: seq<Pattern>, userId: int, text: string): (r: Option<nat>)
    ensures r.Some? ==> (r.value < |ps| && Matches(ps[r.value], userId, text)
                         && forall k :: 0 <= k < r.value ==> !Matches(ps[k], userId, text))
    ensures r.None? ==> forall k :: 0 <= k < |ps| ==> !Matches(ps[k], userId, text)
  {
    if ps == [] then None
    else match FindPattern(ps[..|ps| - 1], userId, text)
      case Some(i) => Some(i)
      case None => if Matches(ps[|ps| - 1], userId, text) then Some(|ps| - 1) else None
  }

  /** Index of the first pattern of the user with this text that points to
      this category. */
  function FindPatternFor(ps: seq<Pattern>, userId: int, categoryId: int, text: string): (r: Option<nat>)
    ensures r.Some? ==> r.value < |ps| && Matches(ps[r.value], userId, text) && ps[r.value].categoryId == categoryId
    ensures r.None? ==> forall k :: 0 <= k < |ps| ==> !(Matches(ps[k], userId, text) && ps[k].categoryId == categoryId)
  {
    if ps == [] then None
    else match FindPatternFor(ps[..|ps| - 1], userId, categoryId, text)
      case Some(i) => Some(i)
      case None =>
        if Matches(ps[|ps| - 1], userId, text) && ps[|ps| - 1].categoryId == categoryId then Some(|ps| - 1) else None
  }

  /** Seeing the note again with `categoryId`: one more use, and either a
      tenth more confidence (at most 1.0) or a switch of category with the
      confidence reset to 0.5. */
  function Reinforce(p: Pattern, categoryId: int, now: int): Pattern
  {
    p.(usage := p.usage + 1, lastUsed := now, categoryId := categoryId,
       confidence := if p.categoryId != categoryId then 5 else Min(10, p.confidence + 1))
  }

  /** The pattern table after `learn_from_transaction`. */
  function Learned(ps: seq<Pattern>, userId: int, categoryId: int, notes: string, now: int): seq<Pattern>
  {
    if Blank(notes) then ps
    else
      var text := Normalize(notes);
      if text == "" then ps
      else match FindPattern(ps, userId, text)
        case Some(i) => ps[i := Reinforce(ps[i], categoryId, now)]
        case None => ps + [Pattern(userId, categoryId, text, 7, 1, now)]
  }

  /** The pattern table after `log_suggestion_feedback`: a rejected
      suggestion costs the pattern that made it two tenths, but never
      below 0.1. */
  function Penalized(ps: seq<Pattern>, userId: int, suggested: int, actual: int, text: string): seq<Pattern>
  {
    if suggested == actual then ps
    else match FindPatternFor(ps, userId, suggested, Normalize(text))
      case Some(i) => ps[i := ps[i].(confidence := Max(1, ps[i].confidence - 2))]
      case None => ps
  }

  function FeedbackLog(userId: int, transactionId: Option<int>, suggested: int, actual: int,
                       text: string, now: int): SuggestionLog
  {
    SuggestionLog(userId, transactionId, suggested, actual, Normalize(text),
                  if suggested == actual then 1 else 0, now)
  }

  class PatternStore {
    var patterns: seq<Pattern>
    var logs: seq<SuggestionLog>

    ghost predicate Valid()
      reads this
    {
      KeysUnique(patterns) && ConfidenceInRange(patterns)
    }

    constructor ()
      ensures Valid() && patterns == [] && logs == []
    {
      patterns, logs := [], [];
    }

    /** The lookup `query(CategoryPattern).filter(user, text).first()`. */
    method Lookup(userId: int, text: string) returns (r: Option<nat>)
      ensures r == FindPattern(patterns, userId, text)
    {
      var i := 0;
      r := None;
      while i < |patterns|
        invariant 0 <= i <= |patterns|
        invariant r == FindPattern(patterns[..i], userId, text)
        invariant r.None?
      {
        assert patterns[..i + 1][..i] == patterns[..i];
        if Matches(patterns[i], userId, text) {
          r := Some(i);
          assert r == FindPattern(patterns[..i + 1], userId, text);
          FindPatternPrefix(patterns, i + 1, userId, text);
          return;
        }
        i := i + 1;
      }
      assert patterns[..i] == patterns;
    }

    /** learn_from_transaction */
    method Learn(userId: int, categoryId: int, notes: string, now: int)
      modifies this
      ensures patterns == Learned(old(patterns), userId, categoryId, notes, now)
      ensures logs == old(logs)
    {
      var blank := BlankCheck(notes);
      if |notes| == 0 || blank {
        return;
      }
      var text := Normalize(notes);
      if text == "" {
        return;
      }
      var found := Lookup(userId, text);
      match found {
        case Some(i) =>
          patterns := patterns[i := Reinforce(patterns[i], categoryId, now)];
        case None =>
          patterns := patterns + [Pattern(userId, categoryId, text, 7, 1, now)];
      }
    }

    /** log_suggestion_feedback */
    method LogFeedback(userId: int, suggested: int, actual: int, text: string,
                       transactionId: Option<int>, now: int)
      modifies this
      ensures logs == old(logs) + [FeedbackLog(userId, transactionId, suggested, actual, text, now)]
      ensures patterns == Penalized(old(patterns), userId, suggested, actual, text)
    {
      logs := logs + [FeedbackLog(userId, transactionId, suggested, actual, text, now)];
      if suggested != actual {
        var wrong := FindPatternFor(patterns, userId, suggested, Normalize(text));
        if wrong.Some? {
          var i := wrong.value;
          patterns := patterns[i := patterns[i].(confidence := Max(1, patterns[i].confidence - 2))];
        }
      }
    }
  }

  /** `not notes.strip()`, checked character by character. */
  method BlankCheck(s: string) returns (b: bool)
    ensures b == Blank(s)
  {
    var i := 0;
    while i < |s|
      invariant 0 <= i <= |s|
      invariant forall k :: 0 <= k < i ==> PySpace(s[k])
    {
      if !PySpace(s[i]) {
        return false;
      }
      i := i + 1;
    }
    return true;
  }

  lemma FindPatternPrefix(ps: seq<Pattern>, n: nat, userId: int, text: string)
    requires n <= |ps| && FindPattern(ps[..n], userId, text).Some?
    ensures FindPattern(ps, userId, text) == FindPattern(ps[..n], userId, text)
  {
    var i := FindPattern(ps[..n], userId, text).value;
    assert ps[..n][i] == ps[i];
    forall k | 0 <= k < i
      ensures !Matches(ps[k], userId, text)
    {
      assert ps[..n][k] == ps[k];
    }
  }

  // ---------------------------------------------------------------------
  // What learning and feedback do to the table

  /** A blank note teaches nothing. */
  lemma LearnBlank(ps: seq<Pattern>, userId: int, categoryId: int, notes: string, now: int)
    requires Blank(notes)
    ensures Learned(ps, userId, categoryId, notes, now) == ps
  {
  }

  /** An unseen note adds exactly one pattern, at 0.7 confidence and one use. */
  lemma LearnNew(ps: seq<Pattern>, userId: int, categoryId: int, notes: string, now: int)
    requires !Blank(notes)
    requires forall k :: 0 <= k < |ps| ==> !Matches(ps[k], userId, Normalize(notes))
    ensures Learned(ps, userId, categoryId, notes, now) == ps + [Pattern(userId, categoryId, Normalize(notes), 7, 1, now)]
  {
    NormalizeEmpty(notes);
  }

  /** A note seen before updates its pattern in place: one more use, the
      given category, confidence up a tenth (same category, at most 1.0)
      or exactly 0.5 (other category); no other pattern changes and none
      is added. */
  lemma LearnExisting(ps: seq<Pattern>, userId: int, categoryId: int, notes: string, now: int, i: nat)
    requires KeysUnique(ps)
    requires i < |ps| && Matches(ps[i], userId, Normalize(notes)) && !Blank(notes)
    ensures var r := Learned(ps, userId, categoryId, notes, now);
      |r| == |ps|
      && r[i].usage == ps[i].usage + 1 && r[i].categoryId == categoryId && r[i].text == ps[i].text
      && r[i].userId == ps[i].userId && r[i].lastUsed == now
      && r[i].confidence == (if ps[i].categoryId == categoryId then Min(10, ps[i].confidence + 1) else 5)
      && forall k :: 0 <= k < |ps| && k != i ==> r[k] == ps[k]
  {
    NormalizeEmpty(notes);
    var f := FindPattern(ps, userId, Normalize(notes));
    assert f.Some?;
    assert Matches(ps[f.value], userId, Normalize(notes));
  }

  lemma LearnKeepsValid(ps: seq<Pattern>, userId: int, categoryId: int, notes: string, now: int)
    requires KeysUnique(ps) && ConfidenceInRange(ps)
    ensures KeysUnique(Learned(ps, userId, categoryId, notes, now))
    ensures ConfidenceInRange(Learned(ps, userId, categoryId, notes, now))
  {
  }

  /** An accepted suggestion leaves every pattern as it was. */
  lemma PenaltyAccepted(ps: seq<Pattern>, userId: int, category: int, text: string)
    ensures Penalized(ps, userId, category, category, text) == ps
  {
  }

  /** A rejected suggestion lowers only the user's pattern with that text
      and the suggested category, by two tenths with a floor of 0.1. */
  lemma PenaltyRejected(ps: seq<Pattern>, userId: int, suggested: int, actual: int, text: string, i: nat)
    requires KeysUnique(ps)
    requires suggested != actual
    requires i < |ps| && Matches(ps[i], userId, Normalize(text)) && ps[i].categoryId == suggested
    ensures var r := Penalized(ps, userId, suggested, actual, text);
      |r| == |ps| && r[i] == ps[i].(confidence := Max(1, ps[i].confidence - 2))
      && forall k :: 0 <= k < |ps| && k != i ==> r[k] == ps[k]
  {
    var f := FindPatternFor(ps, userId, suggested, Normalize(text));
    assert f.Some?;
    assert Matches(ps[f.value], userId, Normalize(text));
  }

  lemma PenaltyKeepsValid(ps: seq<Pattern>, userId: int, suggested: int, actual: int, text: string)
    requires KeysUnique(ps) && ConfidenceInRange(ps)
    ensures KeysUnique(Penalized(ps, userId, suggested, actual, text))
    ensures ConfidenceInRange(Penalized(ps, userId, suggested, actual, text))
  {
  }

  // ---------------------------------------------------------------------
  // get_suggestion_stats

  datatype SuggestionStats = SuggestionStats(total: nat, accepted: nat, rejected: int, accuracy: real)

  predicate InWindow(l: SuggestionLog, userId: int, since: int)
  {
    l.userId == userId && l.createdAt >= since
  }

  function InWindowOf(userId: int, since: int): SuggestionLog -> bool
  {
    (l: SuggestionLog) => InWindow(l, userId, since)
  }

  function IsAccepted(): SuggestionLog -> bool
  {
    (l: SuggestionLog) => l.accepted != 0
  }

  /** Statistics over the user's logs created at or after `since` (the
      caller passes now minus the window); accuracy is a percentage
      (the rounding to two places is not modelled). */
  function Stats(logs: seq<SuggestionLog>, userId: int, since: int): SuggestionStats
  {
    var window := Filter(logs, InWindowOf(userId, since));
    if window == [] then SuggestionStats(0, 0, 0, 0.0)
    else
      var total := |window|;
      var accepted := CountOf(window, IsAccepted());
      SuggestionStats(total, accepted, total - accepted, Percent(accepted, total))
  }

  /** `(a / t) * 100` */
  function Percent(a: nat, t: nat): real
    requires t > 0
  {
    (a as real / t as real) * 100.0
  }

  /** Percent(a, t) is the share of a in t, out of 100. */
  lemma Percentage(a: nat, t: nat)
    requires 0 < t && a <= t
    ensures 0.0 <= Percent(a, t) <= 100.0
    ensures Percent(a, t) * (t as real) == (a as real) * 100.0
  {
    var q := a as real / t as real;
    assert q * (t as real) == a as real;
    assert q <= 1.0 by {
      if q > 1.0 {
        assert q * (t as real) > t as real;
      }
    }
  }

  /** Accepted and rejected add up to the total, neither is negative, an
      empty window gives all zeros, and accuracy is a percentage of
      accepted feedback. */
  lemma StatsConsistent(logs: seq<SuggestionLog>, userId: int, since: int)
    ensures var s := Stats(logs, userId, since);
      s.accepted + s.rejected == s.total && s.rejected >= 0
      && s.total == CountOf(logs, InWindowOf(userId, since))
      && (s.total == 0 ==> s.accepted == 0 && s.accuracy == 0.0)
      && 0.0 <= s.accuracy <= 100.0
      && (s.total > 0 ==> s.accuracy == Percent(s.accepted, s.total))
  {
    var window := Filter(logs, InWindowOf(userId, since));
    FilterLength(logs, InWindowOf(userId, since));
    CountOfAtMost(window, IsAccepted());
    var s := Stats(logs, userId, since);
    if window != [] {
      var a, t := CountOf(window, IsAccepted()), |window|;
      assert s == SuggestionStats(t, a, t - a, Percent(a, t));
      Percentage(a, t);
    } else {
      assert s.total == 0;
    }
  }
}
