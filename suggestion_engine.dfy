/** `get_suggestions` of the category suggestion service: up to `limit`
    categories of one budget for a transaction note, gathered in four
    stages (exact pattern match, keyword match, similar amount, most used),
    each asked only for the places still free, then de-duplicated by
    category in order of appearance.

    The queries of the stages are functions over the pattern, category and
    transaction tables in table order; `ORDER BY ... DESC` is the stable
    sort of `Sorting` (rows with equal keys keep table order). Keyword
    scores are kept in hundredths: a pattern with confidence c tenths and
    u uses scores c * (10 + min(u, 10)). */
module SuggestionEngine {
  import opened Common
  import opened Sorting
  import opened SuggestionText
  import opened SuggestionStore
  import opened BudgetDb

  datatype Reason = ExactMatch | KeywordMatch | SimilarAmount | FrequentlyUsed

  datatype Suggestion = Suggestion(
    categoryId: int, categoryName: string, confidence: real, reason: Reason, usageCount: int)

  /** A category the stages may offer: one of the budget's, and active. */
  predicate Eligible(c: BudgetCategory, budgetId: int)
  {
    c.budgetId == budgetId && c.isActive
  }

  /** The join on `category_id == BudgetCategory.id`, kept only when the
      category is eligible. */
  function JoinedCategory(cats: seq<BudgetCategory>, categoryId: int, budgetId: int): (r: Option<BudgetCategory>)
    ensures r.Some? ==> r.value in cats && r.value.id == categoryId && Eligible(r.value, budgetId)
    ensures r.None? ==> forall c :: c in cats ==> !(c.id == categoryId && Eligible(c, budgetId))
  {
    if cats == [] then None
    else if cats[0].id == categoryId && Eligible(cats[0], budgetId) then Some(cats[0])
    else JoinedCategory(cats[1..], categoryId, budgetId)
  }

  /** The suggestion names an eligible category of the table by its id and name. */
  predicate Offers(cats: seq<BudgetCategory>, budgetId: int, s: Suggestion)
  {
    exists c :: c in cats && Eligible(c, budgetId) && c.id == s.categoryId && c.name == s.categoryName
  }

  function Tenths(c: int): real
  {
    c as real / 10.0
  }

  // ---------------------------------------------------------------------
  // 1. Exact pattern match

  datatype Match = Match(pattern: Pattern, category: BudgetCategory)

  /** The user's patterns with exactly this text, joined to their category. */
  function ExactRows(ps: seq<Pattern>, cats: seq<BudgetCategory>, userId: int, budgetId: int, text: string): (r: seq<Match>)
    ensures forall m :: m in r ==>
      m.pattern in ps && Matches(m.pattern, userId, text)
      && m.category in cats && m.category.id == m.pattern.categoryId && Eligible(m.category, budgetId)
  {
    if ps == [] then []
    else
      var p := ps[|ps| - 1];
      var c := JoinedCategory(cats, p.categoryId, budgetId);
      ExactRows(ps[..|ps| - 1], cats, userId, budgetId, text)
      + (if Matches(p, userId, text) && c.Some? then [Match(p, c.value)] else [])
  }

  /** `order_by(desc(confidence_score), desc(usage_count))` */
  function ByPatternRank(): (Match, Match) -> bool
  {
    (a: Match, b: Match) =>
      a.pattern.confidence > b.pattern.confidence
      || (a.pattern.confidence == b.pattern.confidence && a.pattern.usage >= b.pattern.usage)
  }

  function ExactSuggestion(m: Match): Suggestion
  {
    Suggestion(m.category.id, m.category.name, Tenths(m.pattern.confidence), ExactMatch, m.pattern.usage)
  }

  function ExactStage(ps: seq<Pattern>, cats: seq<BudgetCategory>, userId: int, budgetId: int,
                      text: string, limit: nat): seq<Suggestion>
  {
    var top := Take(SortBy(ExactRows(ps, cats, userId, budgetId, text), ByPatternRank()), limit);
    seq(|top|, i requires 0 <= i < |top| => ExactSuggestion(top[i]))
  }

  lemma PatternRankIsPreorder()
    ensures TotalPreorder(ByPatternRank())
  {
  }

  lemma SortedMember<T>(s: seq<T>, le: (T, T) -> bool, x: T)
    requires x in SortBy(s, le)
    ensures x in s
  {
    SortByPermutes(s, le);
    assert x in multiset(SortBy(s, le));
  }

  /** Every pattern of the user with exactly this text whose category
      joins has its row. */
  lemma {:induction false} ExactRowsComplete(ps: seq<Pattern>, cats: seq<BudgetCategory>, userId: int,
                                             budgetId: int, text: string, p: Pattern)
    requires p in ps && Matches(p, userId, text) && JoinedCategory(cats, p.categoryId, budgetId).Some?
    ensures Match(p, JoinedCategory(cats, p.categoryId, budgetId).value) in ExactRows(ps, cats, userId, budgetId, text)
  {
    var init := ps[..|ps| - 1];
    if p != ps[|ps| - 1] {
      assert ps == init + [ps[|ps| - 1]];
      ExactRowsComplete(init, cats, userId, budgetId, text, p);
    }
  }

  /** The exact stage offers at most `limit` eligible categories, each from
      a pattern of the user with exactly this text, with that pattern's
      confidence and use count, best pattern first. */
  lemma ExactStageSound(ps: seq<Pattern>, cats: seq<BudgetCategory>, userId: int, budgetId: int,
                        text: string, limit: nat)
    ensures var r := ExactStage(ps, cats, userId, budgetId, text, limit);
      |r| <= limit
      && (forall i :: 0 <= i < |r| ==>
            (r[i].reason == ExactMatch && Offers(cats, budgetId, r[i])
             && exists p :: (p in ps && Matches(p, userId, text) && p.categoryId == r[i].categoryId
                             && r[i].confidence == Tenths(p.confidence) && r[i].usageCount == p.usage)))
      && (forall i, j :: 0 <= i < j < |r| ==> r[i].confidence >= r[j].confidence)
  {
    var rows := ExactRows(ps, cats, userId, budgetId, text);
    var sorted := SortBy(rows, ByPatternRank());
    var top := Take(sorted, limit);
    var r := ExactStage(ps, cats, userId, budgetId, text, limit);
    forall i | 0 <= i < |r|
      ensures Offers(cats, budgetId, r[i])
      ensures exists p :: p in ps && Matches(p, userId, text) && p.categoryId == r[i].categoryId
                && r[i].confidence == Tenths(p.confidence) && r[i].usageCount == p.usage
    {
      assert top[i] in sorted;
      SortedMember(rows, ByPatternRank(), top[i]);
      assert top[i].category in cats;
    }
    PatternRankIsPreorder();
    SortBySorted(rows, ByPatternRank());
    forall i, j | 0 <= i < j < |r|
      ensures r[i].confidence >= r[j].confidence
    {
      assert ByPatternRank()(sorted[i], sorted[j]);
    }
  }

  /** The exact stage offers as many rows as the limit allows, so when the
      limit is not below the number of joined rows every pattern of the
      user with this text whose category joins is offered, with its
      confidence and use count. */
  lemma ExactStageComplete(ps: seq<Pattern>, cats: seq<BudgetCategory>, userId: int, budgetId: int,
                           text: string, limit: nat)
    ensures var r := ExactStage(ps, cats, userId, budgetId, text, limit);
      var rows := ExactRows(ps, cats, userId, budgetId, text);
      |r| == Min(limit, |rows|)
      && (limit >= |rows| ==>
            forall p :: p in ps && Matches(p, userId, text) && JoinedCategory(cats, p.categoryId, budgetId).Some? ==>
              exists i :: 0 <= i < |r| && r[i].categoryId == p.categoryId && r[i].confidence == Tenths(p.confidence)
                          && r[i].usageCount == p.usage)
  {
    var rows := ExactRows(ps, cats, userId, budgetId, text);
    var sorted := SortBy(rows, ByPatternRank());
    var r := ExactStage(ps, cats, userId, budgetId, text, limit);
    SortByPermutes(rows, ByPatternRank());
    if limit >= |rows| {
      assert Take(sorted, limit) == sorted;
      forall p | p in ps && Matches(p, userId, text) && JoinedCategory(cats, p.categoryId, budgetId).Some?
        ensures exists i :: 0 <= i < |r| && r[i].categoryId == p.categoryId && r[i].confidence == Tenths(p.confidence)
                            && r[i].usageCount == p.usage
      {
        var m := Match(p, JoinedCategory(cats, p.categoryId, budgetId).value);
        ExactRowsComplete(ps, cats, userId, budgetId, text, p);
        assert m in multiset(rows);
        assert m in multiset(sorted);
        var i :| 0 <= i < |sorted| && sorted[i] == m;
        assert r[i] == ExactSuggestion(m);
      }
    }
  }

  /** With one pattern per user and text, the exact stage has at most one row. */
  lemma {:induction false} ExactRowsAtMostOne(ps: seq<Pattern>, cats: seq<BudgetCategory>, userId: int,
                                             budgetId: int, text: string)
    requires KeysUnique(ps)
    ensures |ExactRows(ps, cats, userId, budgetId, text)| <= 1
  {
    if ps != [] {
      var p := ps[..|ps| - 1];
      assert KeysUnique(p) by {
        forall i, j | 0 <= i < j < |p| ensures !(p[i].userId == p[j].userId && p[i].text == p[j].text) {
          assert p[i] == ps[i] && p[j] == ps[j];
        }
      }
      ExactRowsAtMostOne(p, cats, userId, budgetId, text);
      if Matches(ps[|ps| - 1], userId, text) {
        forall k | 0 <= k < |p| ensures !Matches(p[k], userId, text) {
          assert p[k] == ps[k];
        }
        NoMatchNoRows(p, cats, userId, budgetId, text);
      }
    }
  }

  lemma {:induction false} NoMatchNoRows(ps: seq<Pattern>, cats: seq<BudgetCategory>, userId: int,
                                         budgetId: int, text: string)
    requires forall k :: 0 <= k < |ps| ==> !Matches(ps[k], userId, text)
    ensures ExactRows(ps, cats, userId, budgetId, text) == []
  {
    if ps != [] {
      NoMatchNoRows(ps[..|ps| - 1], cats, userId, budgetId, text);
    }
  }

  // ---------------------------------------------------------------------
  // 2. Keyword match

  /** One (keyword, pattern) hit for a category, with the pattern's score. */
  datatype Hit = Hit(category: BudgetCategory, weight: int)

  /** The running total of one category: the `category_scores` entry. */
  datatype Tally = Tally(category: BudgetCategory, score: int, matches: nat)

  /** `confidence_score * (1 + min(usage_count / 10, 1))`, in hundredths. */
  function Weight(p: Pattern): int
  {
    p.confidence * (10 + Min(p.usage, 10))
  }

  /** The hits of one keyword: the user's patterns whose text contains it
      (`LIKE '%keyword%'`), joined to their eligible category, in table order. */
  function HitsFor(ps: seq<Pattern>, cats: seq<BudgetCategory>, userId: int, budgetId: int, keyword: string): seq<Hit>
  {
    if ps == [] then []
    else
      var p := ps[|ps| - 1];
      var c := JoinedCategory(cats, p.categoryId, budgetId);
      HitsFor(ps[..|ps| - 1], cats, userId, budgetId, keyword)
      + (if p.userId == userId && Contains(p.text, keyword) && c.Some? then [Hit(c.value, Weight(p))] else [])
  }

  /** The hits of all keywords, keyword by keyword. */
  function Hits(ps: seq<Pattern>, cats: seq<BudgetCategory>, userId: int, budgetId: int, keywords: seq<string>): seq<Hit>
  {
    if keywords == [] then []
    else Hits(ps, cats, userId, budgetId, keywords[..|keywords| - 1])
         + HitsFor(ps, cats, userId, budgetId, keywords[|keywords| - 1])
  }

  /** Each hit of a keyword comes from one of the user's patterns whose text
      contains the keyword, and names an eligible category. */
  lemma {:induction false} HitsForSound(ps: seq<Pattern>, cats: seq<BudgetCategory>, userId: int, budgetId: int, keyword: string)
    ensures forall h :: h in HitsFor(ps, cats, userId, budgetId, keyword) ==>
      (h.category in cats && Eligible(h.category, budgetId)
       && exists p :: (p in ps && p.userId == userId && p.categoryId == h.category.id
                       && Contains(p.text, keyword) && h.weight == Weight(p)))
  {
    if ps != [] {
      var init, p := ps[..|ps| - 1], ps[|ps| - 1];
      HitsForSound(init, cats, userId, budgetId, keyword);
      forall q | q in init ensures q in ps { }
    }
  }

  /** The same for all keywords together. */
  lemma {:induction false} HitsSound(ps: seq<Pattern>, cats: seq<BudgetCategory>, userId: int, budgetId: int, keywords: seq<string>)
    ensures forall h :: h in Hits(ps, cats, userId, budgetId, keywords) ==>
      (h.category in cats && Eligible(h.category, budgetId)
       && exists p :: p in ps && p.userId == userId && p.categoryId == h.category.id && h.weight == Weight(p))
  {
    if keywords != [] {
      HitsSound(ps, cats, userId, budgetId, keywords[..|keywords| - 1]);
      HitsForSound(ps, cats, userId, budgetId, keywords[|keywords| - 1]);
    }
  }

  /** Index of the tally of this category, if there is one. */
  function FindTally(ts: seq<Tally>, categoryId: int): (r: Option<nat>)
    ensures r.Some? ==> r.value < |ts| && ts[r.value].category.id == categoryId
    ensures r.None? ==> forall i :: 0 <= i < |ts| ==> ts[i].category.id != categoryId
  {
    if ts == [] then None
    else match FindTally(ts[..|ts| - 1], categoryId)
      case Some(i) => Some(i)
      case None => if ts[|ts| - 1].category.id == categoryId then Some(|ts| - 1) else None
  }

  /** One hit added to the dictionary: the first hit of a category opens its
      entry (and fixes its name), later ones add to it. */
  function AddHit(ts: seq<Tally>, h: Hit): seq<Tally>
  {
    match FindTally(ts, h.category.id)
      case Some(i) => ts[i := ts[i].(score := ts[i].score + h.weight, matches := ts[i].matches + 1)]
      case None => ts + [Tally(h.category, h.weight, 1)]
  }

  /** The dictionary after all hits, entries in insertion order. */
  function Accumulate(hits: seq<Hit>): seq<Tally>
  {
    if hits == [] then [] else AddHit(Accumulate(hits[..|hits| - 1]), hits[|hits| - 1])
  }

  function OfCategory(categoryId: int): Hit -> bool
  {
    (h: Hit) => h.category.id == categoryId
  }

  function HitWeight(): Hit -> int
  {
    (h: Hit) => h.weight
  }

  /** The hits of one category. */
  function CategoryHits(hits: seq<Hit>, categoryId: int): seq<Hit>
  {
    Filter(hits, OfCategory(categoryId))
  }

  /** The entry t is the sum and count of its category's hits, and its
      category is that of the category's first hit. */
  ghost predicate TallyOf(hits: seq<Hit>, t: Tally)
  {
    var hs := CategoryHits(hits, t.category.id);
    t.score == SumOf(hs, HitWeight()) && t.matches == |hs| && hs != [] && hs[0].category == t.category
  }

  /** ts is the dictionary of the hits: one entry per category hit, each
      entry right. */
  ghost predicate TalliesOf(hits: seq<Hit>, ts: seq<Tally>)
  {
    (forall i, j :: 0 <= i < j < |ts| ==> ts[i].category.id != ts[j].category.id)
    && (forall i :: 0 <= i < |ts| ==> TallyOf(hits, ts[i]))
    && (forall h :: h in hits ==> FindTally(ts, h.category.id).Some?)
  }

  lemma CategoryHitsSnoc(p: seq<Hit>, h: Hit, id: int)
    ensures CategoryHits(p + [h], id) == CategoryHits(p, id) + (if h.category.id == id then [h] else [])
  {
    assert (p + [h])[..|p|] == p;
  }

  lemma TallyOfOther(p: seq<Hit>, h: Hit, t: Tally)
    requires TallyOf(p, t) && t.category.id != h.category.id
    ensures TallyOf(p + [h], t)
  {
    CategoryHitsSnoc(p, h, t.category.id);
    assert CategoryHits(p + [h], t.category.id) == CategoryHits(p, t.category.id);
  }

  lemma TallyOfSame(p: seq<Hit>, h: Hit, t: Tally)
    requires TallyOf(p, t) && t.category.id == h.category.id
    ensures TallyOf(p + [h], t.(score := t.score + h.weight, matches := t.matches + 1))
  {
    CategoryHitsSnoc(p, h, t.category.id);
    SumOfSnoc(CategoryHits(p, h.category.id), h, HitWeight());
  }

  /** A hit of a category that already has an entry adds to that entry. */
  lemma AddHitFound(p: seq<Hit>, ts: seq<Tally>, h: Hit, k: nat)
    requires TalliesOf(p, ts)
    requires FindTally(ts, h.category.id) == Some(k)
    ensures TalliesOf(p + [h], AddHit(ts, h))
  {
    var t := ts[k].(score := ts[k].score + h.weight, matches := ts[k].matches + 1);
    var r := ts[k := t];
    AddHitUpdates(ts, h, k);
    forall i | 0 <= i < |r| ensures TallyOf(p + [h], r[i]) {
      if i == k {
        TallyOfSame(p, h, ts[k]);
      } else {
        TallyOfOther(p, h, ts[i]);
      }
    }
    forall x | x in p + [h] ensures FindTally(r, x.category.id).Some? {
      if x == h {
        FindTallyAt(r, k);
      } else {
        assert x in p;
        FindTallyAt(r, FindTally(ts, x.category.id).value);
      }
    }
  }

  lemma AddHitUpdates(ts: seq<Tally>, h: Hit, k: nat)
    requires FindTally(ts, h.category.id) == Some(k)
    ensures AddHit(ts, h) == ts[k := ts[k].(score := ts[k].score + h.weight, matches := ts[k].matches + 1)]
  {
  }

  lemma FindTallyAt(ts: seq<Tally>, k: nat)
    requires k < |ts|
    ensures FindTally(ts, ts[k].category.id).Some?
  {
  }

  /** The first hit of a category opens its entry at the end. */
  lemma AddHitNew(p: seq<Hit>, ts: seq<Tally>, h: Hit)
    requires TalliesOf(p, ts)
    requires FindTally(ts, h.category.id).None?
    ensures TalliesOf(p + [h], AddHit(ts, h))
  {
    var r := ts + [Tally(h.category, h.weight, 1)];
    assert AddHit(ts, h) == r;
    forall y | y in p ensures !OfCategory(h.category.id)(y) {
      assert FindTally(ts, y.category.id).Some?;
    }
    FilterNone(p, OfCategory(h.category.id));
    forall i | 0 <= i < |r| ensures TallyOf(p + [h], r[i]) {
      if i == |ts| {
        CategoryHitsSnoc(p, h, h.category.id);
        assert CategoryHits(p + [h], h.category.id) == [h];
        assert SumOf([h], HitWeight()) == h.weight by {
          assert [h][..0] == [];
        }
      } else {
        TallyOfOther(p, h, ts[i]);
      }
    }
    forall x | x in p + [h] ensures FindTally(r, x.category.id).Some? {
      if x == h {
        FindTallyAt(r, |ts|);
      } else {
        assert x in p;
        FindTallyAt(r, FindTally(ts, x.category.id).value);
      }
    }
  }

  /** Each entry of the dictionary is a different category that has hits;
      its score is the sum of that category's hit weights and its match
      count their number; its category is that of the category's first
      hit; and every hit's category has an entry. */
  lemma {:induction false} AccumulateTallies(hits: seq<Hit>)
    ensures TalliesOf(hits, Accumulate(hits))
  {
    if hits != [] {
      var p := hits[..|hits| - 1];
      var h := hits[|hits| - 1];
      assert p + [h] == hits;
      assert Accumulate(hits) == AddHit(Accumulate(p), h);
      AccumulateTallies(p);
      AddHitTallies(p, Accumulate(p), h);
    }
  }

  /** One hit keeps the dictionary right. */
  lemma AddHitTallies(p: seq<Hit>, ts: seq<Tally>, h: Hit)
    requires TalliesOf(p, ts)
    ensures TalliesOf(p + [h], AddHit(ts, h))
  {
    match FindTally(ts, h.category.id)
    case Some(k) => AddHitFound(p, ts, h, k);
    case None => AddHitNew(p, ts, h);
  }

  /** Sort key `(score, matches)`, descending. */
  function ByScore(): (Tally, Tally) -> bool
  {
    (a: Tally, b: Tally) => a.score > b.score || (a.score == b.score && a.matches >= b.matches)
  }

  lemma ScoreIsPreorder()
    ensures TotalPreorder(ByScore())
  {
  }

  /** `min(score / len(keywords), 1.0)` with the score in hundredths. */
  function KeywordConfidence(score: int, keywordCount: nat): real
    requires keywordCount > 0
  {
    var x := score as real / (100 * keywordCount) as real;
    if x < 1.0 then x else 1.0
  }

  lemma KeywordConfidenceMonotone(a: int, b: int, n: nat)
    requires n > 0 && a >= b
    ensures KeywordConfidence(a, n) >= KeywordConfidence(b, n)
  {
    DivisionMonotone(a as real, b as real, (100 * n) as real);
  }

  lemma DivisionMonotone(x: real, y: real, d: real)
    requires d > 0.0 && x >= y
    ensures x / d >= y / d
  {
    var q := (x - y) / d;
    assert x / d == y / d + q;
    assert q >= 0.0;
  }

  function KeywordSuggestion(t: Tally, keywordCount: nat): Suggestion
    requires keywordCount > 0
  {
    Suggestion(t.category.id, t.category.name, KeywordConfidence(t.score, keywordCount), KeywordMatch, t.matches)
  }

  /** The first `limit` entries of the ranked dictionary as suggestions. */
  function KeywordRank(sorted: seq<Tally>, keywordCount: nat, limit: nat): seq<Suggestion>
    requires keywordCount > 0
  {
    var top := Take(sorted, limit);
    seq(|top|, i requires 0 <= i < |top| => KeywordSuggestion(top[i], keywordCount))
  }

  function KeywordStage(ps: seq<Pattern>, cats: seq<BudgetCategory>, userId: int, budgetId: int,
                        keywords: seq<string>, limit: nat): seq<Suggestion>
  {
    if keywords == [] then []
    else KeywordRank(SortBy(Accumulate(Hits(ps, cats, userId, budgetId, keywords)), ByScore()), |keywords|, limit)
  }

  /** Hits added one after another to an existing dictionary. */
  function AddHits(ts: seq<Tally>, hits: seq<Hit>): seq<Tally>
  {
    if hits == [] then ts else AddHit(AddHits(ts, hits[..|hits| - 1]), hits[|hits| - 1])
  }

  lemma {:induction false} AccumulateAppend(a: seq<Hit>, b: seq<Hit>)
    ensures Accumulate(a + b) == AddHits(Accumulate(a), b)
  {
    if b == [] {
      assert a + b == a;
    } else {
      assert (a + b)[..|a + b| - 1] == a + b[..|b| - 1];
      AccumulateAppend(a, b[..|b| - 1]);
    }
  }

  /** The inner loop of `_get_keyword_matches`: the hits of one keyword
      added to the dictionary. */
  method AddKeywordHits(ts0: seq<Tally>, ps: seq<Pattern>, cats: seq<BudgetCategory>, userId: int,
                        budgetId: int, keyword: string) returns (ts: seq<Tally>)
    ensures ts == AddHits(ts0, HitsFor(ps, cats, userId, budgetId, keyword))
  {
    ts := ts0;
    var j := 0;
    while j < |ps|
      invariant 0 <= j <= |ps|
      invariant ts == AddHits(ts0, HitsFor(ps[..j], cats, userId, budgetId, keyword))
    {
      var p := ps[j];
      var c := JoinedCategory(cats, p.categoryId, budgetId);
      HitsForPrefix(ps, j, cats, userId, budgetId, keyword);
      ghost var hs := HitsFor(ps[..j], cats, userId, budgetId, keyword);
      if p.userId == userId && Contains(p.text, keyword) && c.Some? {
        var h := Hit(c.value, Weight(p));
        AddHitsSnoc(ts0, hs, h);
        ts := AddHit(ts, h);
      } else {
        assert hs + [] == hs;
      }
      j := j + 1;
    }
    assert ps[..j] == ps;
  }

  /** One more pattern adds its hit, if any, at the end. */
  lemma HitsForPrefix(ps: seq<Pattern>, j: nat, cats: seq<BudgetCategory>, userId: int, budgetId: int, keyword: string)
    requires j < |ps|
    ensures var c := JoinedCategory(cats, ps[j].categoryId, budgetId);
      HitsFor(ps[..j + 1], cats, userId, budgetId, keyword)
      == HitsFor(ps[..j], cats, userId, budgetId, keyword)
         + (if ps[j].userId == userId && Contains(ps[j].text, keyword) && c.Some? then [Hit(c.value, Weight(ps[j]))] else [])
  {
    assert ps[..j + 1][..j] == ps[..j];
  }

  lemma AddHitsSnoc(ts: seq<Tally>, hs: seq<Hit>, h: Hit)
    ensures AddHits(ts, hs + [h]) == AddHit(AddHits(ts, hs), h)
  {
    assert (hs + [h])[..|hs|] == hs;
  }

  /** The outer loop of `_get_keyword_matches`, keyword by keyword, that
      fills `category_scores`. */
  method KeywordTallies(ps: seq<Pattern>, cats: seq<BudgetCategory>, userId: int, budgetId: int,
                        keywords: seq<string>) returns (ts: seq<Tally>)
    ensures ts == Accumulate(Hits(ps, cats, userId, budgetId, keywords))
  {
    ts := [];
    var k := 0;
    while k < |keywords|
      invariant 0 <= k <= |keywords|
      invariant ts == Accumulate(Hits(ps, cats, userId, budgetId, keywords[..k]))
    {
      ghost var before := Hits(ps, cats, userId, budgetId, keywords[..k]);
      ts := AddKeywordHits(ts, ps, cats, userId, budgetId, keywords[k]);
      assert keywords[..k + 1][..k] == keywords[..k];
      AccumulateAppend(before, HitsFor(ps, cats, userId, budgetId, keywords[k]));
      k := k + 1;
    }
    assert keywords[..k] == keywords;
  }

  /** _get_keyword_matches */
  method KeywordMatches(ps: seq<Pattern>, cats: seq<BudgetCategory>, userId: int, budgetId: int,
                        keywords: seq<string>, limit: nat) returns (r: seq<Suggestion>)
    ensures r == KeywordStage(ps, cats, userId, budgetId, keywords, limit)
  {
    if keywords == [] {
      return [];
    }
    var ts := KeywordTallies(ps, cats, userId, budgetId, keywords);
    var sorted := SortedCopy(ts, ByScore());
    r := KeywordRank(sorted, |keywords|, limit);
  }

  /** An entry of the ranked dictionary belongs to an eligible category
      hit by the keywords, with that category's hit count and score. */
  lemma RankedTally(hits: seq<Hit>, cats: seq<BudgetCategory>, budgetId: int, t: Tally)
    requires forall h :: h in hits ==> h.category in cats && Eligible(h.category, budgetId)
    requires t in SortBy(Accumulate(hits), ByScore())
    ensures t.category in cats && Eligible(t.category, budgetId)
    ensures t.matches == |CategoryHits(hits, t.category.id)| > 0
    ensures t.score == SumOf(CategoryHits(hits, t.category.id), HitWeight())
  {
    var ts := Accumulate(hits);
    SortedMember(ts, ByScore(), t);
    var k :| 0 <= k < |ts| && ts[k] == t;
    AccumulateTallies(hits);
    assert TallyOf(hits, ts[k]);
    var hs := CategoryHits(hits, t.category.id);
    assert hs[0] in hs;
    assert hs[0] in hits && hs[0].category == t.category;
  }

  /** The keyword stage offers at most `limit` eligible categories; each
      one's use count is its number of (keyword, pattern) hits and its
      confidence the hit score per keyword, capped at 1.0. */
  lemma KeywordStageSound(ps: seq<Pattern>, cats: seq<BudgetCategory>, userId: int, budgetId: int,
                          keywords: seq<string>, limit: nat)
    requires keywords != []
    ensures var r := KeywordStage(ps, cats, userId, budgetId, keywords, limit);
      var hits := Hits(ps, cats, userId, budgetId, keywords);
      |r| <= limit
      && forall i :: 0 <= i < |r| ==>
           (r[i].reason == KeywordMatch && Offers(cats, budgetId, r[i])
            && r[i].usageCount == |CategoryHits(hits, r[i].categoryId)| > 0
            && r[i].confidence == KeywordConfidence(SumOf(CategoryHits(hits, r[i].categoryId), HitWeight()), |keywords|))
  {
    var hits := Hits(ps, cats, userId, budgetId, keywords);
    var sorted := SortBy(Accumulate(hits), ByScore());
    HitsSound(ps, cats, userId, budgetId, keywords);
    var r := KeywordStage(ps, cats, userId, budgetId, keywords, limit);
    forall i | 0 <= i < |r|
      ensures Offers(cats, budgetId, r[i])
      ensures r[i].usageCount == |CategoryHits(hits, r[i].categoryId)| > 0
      ensures r[i].confidence == KeywordConfidence(SumOf(CategoryHits(hits, r[i].categoryId), HitWeight()), |keywords|)
    {
      assert r[i] == KeywordSuggestion(sorted[i], |keywords|);
      RankedTally(hits, cats, budgetId, sorted[i]);
    }
  }

  /** A ranking with room for every tally has one suggestion per tally. */
  lemma KeywordRankCovers(sorted: seq<Tally>, keywordCount: nat, limit: nat, t: Tally)
    requires keywordCount > 0 && limit >= |sorted| && t in sorted
    ensures exists i :: 0 <= i < |KeywordRank(sorted, keywordCount, limit)|
                        && KeywordRank(sorted, keywordCount, limit)[i].categoryId == t.category.id
  {
    var i :| 0 <= i < |sorted| && sorted[i] == t;
    assert KeywordRank(sorted, keywordCount, limit)[i] == KeywordSuggestion(sorted[i], keywordCount);
  }

  /** The keyword stage offers as many categories as the limit allows, so
      when the limit is not below the number of categories hit every hit
      category is offered. */
  lemma KeywordStageComplete(ps: seq<Pattern>, cats: seq<BudgetCategory>, userId: int, budgetId: int,
                             keywords: seq<string>, limit: nat)
    requires keywords != []
    ensures var r := KeywordStage(ps, cats, userId, budgetId, keywords, limit);
      var hits := Hits(ps, cats, userId, budgetId, keywords);
      |r| == Min(limit, |Accumulate(hits)|)
      && (limit >= |Accumulate(hits)| ==>
            forall h :: h in hits ==> exists i :: 0 <= i < |r| && r[i].categoryId == h.category.id)
  {
    var hits := Hits(ps, cats, userId, budgetId, keywords);
    var ts := Accumulate(hits);
    var sorted := SortBy(ts, ByScore());
    SortByPermutes(ts, ByScore());
    assert |sorted| == |multiset(sorted)| == |ts|;
    if limit >= |ts| {
      forall h | h in hits
        ensures exists i :: 0 <= i < |KeywordRank(sorted, |keywords|, limit)|
                            && KeywordRank(sorted, |keywords|, limit)[i].categoryId == h.category.id
      {
        AccumulateTallies(hits);
        var k := FindTally(ts, h.category.id).value;
        assert ts[k] in multiset(ts);
        assert ts[k] in sorted by { assert ts[k] in multiset(sorted); }
        KeywordRankCovers(sorted, |keywords|, limit, ts[k]);
      }
    }
  }


  /** Keyword suggestions come highest confidence first. */
  lemma KeywordStageRanked(ps: seq<Pattern>, cats: seq<BudgetCategory>, userId: int, budgetId: int,
                           keywords: seq<string>, limit: nat)
    requires keywords != []
    ensures var r := KeywordStage(ps, cats, userId, budgetId, keywords, limit);
      forall i, j :: 0 <= i < j < |r| ==> r[i].confidence >= r[j].confidence
  {
    var ts := Accumulate(Hits(ps, cats, userId, budgetId, keywords));
    var sorted := SortBy(ts, ByScore());
    var r := KeywordStage(ps, cats, userId, budgetId, keywords, limit);
    ScoreIsPreorder();
    SortBySorted(ts, ByScore());
    forall i, j | 0 <= i < j < |r|
      ensures r[i].confidence >= r[j].confidence
    {
      assert ByScore()(sorted[i], sorted[j]);
      KeywordConfidenceMonotone(sorted[i].score, sorted[j].score, |keywords|);
    }
  }

  // ---------------------------------------------------------------------
  // 3. Similar amount and 4. most used

  /** One `GROUP BY` row: a category and its transaction count. */
  datatype Group = Group(category: BudgetCategory, count: nat)

  /** `amount_cents.between(a - 0.2a, a + 0.2a)`, in integers. */
  predicate SimilarAmountTo(t: int, a: int)
  {
    4 * a <= 5 * t <= 6 * a
  }

  function AmountMatchOf(userId: int, categoryId: int, amount: int): Transaction -> bool
  {
    (t: Transaction) => t.userId == userId && t.categoryId == Some(categoryId) && !t.isSplit
                        && SimilarAmountTo(t.amountCents, amount)
  }

  function UsedBy(userId: int, categoryId: int): Transaction -> bool
  {
    (t: Transaction) => t.userId == userId && t.categoryId == Some(categoryId)
  }

  /** Eligible categories with at least one similar unsplit transaction of the user. */
  function AmountGroups(cats: seq<BudgetCategory>, txs: seq<Transaction>, userId: int, budgetId: int,
                        amount: int): seq<Group>
  {
    if cats == [] then []
    else
      var c := cats[|cats| - 1];
      var n := CountOf(txs, AmountMatchOf(userId, c.id, amount));
      AmountGroups(cats[..|cats| - 1], txs, userId, budgetId, amount)
      + (if Eligible(c, budgetId) && n > 0 then [Group(c, n)] else [])
  }

  /** Each amount group is an eligible category with its number of
      similar unsplit transactions of the user, and that number is positive. */
  lemma {:induction false} AmountGroupsSound(cats: seq<BudgetCategory>, txs: seq<Transaction>, userId: int,
                                             budgetId: int, amount: int)
    ensures forall g :: g in AmountGroups(cats, txs, userId, budgetId, amount) ==>
      (g.category in cats && Eligible(g.category, budgetId)
       && g.count == CountOf(txs, AmountMatchOf(userId, g.category.id, amount)) > 0)
  {
    if cats != [] {
      AmountGroupsSound(cats[..|cats| - 1], txs, userId, budgetId, amount);
      forall d | d in cats[..|cats| - 1] ensures d in cats { }
    }
  }

  /** Every eligible category with the number of the user's transactions
      in it (the outer join keeps the unused ones, with 0). */
  function PopularGroups(cats: seq<BudgetCategory>, txs: seq<Transaction>, userId: int, budgetId: int): seq<Group>
  {
    if cats == [] then []
    else
      var c := cats[|cats| - 1];
      PopularGroups(cats[..|cats| - 1], txs, userId, budgetId)
      + (if Eligible(c, budgetId) then [Group(c, CountOf(txs, UsedBy(userId, c.id)))] else [])
  }

  /** Each popular group is an eligible category with the user's number of
      transactions in it, and every eligible category has its group. */
  lemma {:induction false} PopularGroupsSound(cats: seq<BudgetCategory>, txs: seq<Transaction>, userId: int, budgetId: int)
    ensures var r := PopularGroups(cats, txs, userId, budgetId);
      (forall g :: g in r ==>
         (g.category in cats && Eligible(g.category, budgetId)
          && g.count == CountOf(txs, UsedBy(userId, g.category.id))))
      && (forall c :: c in cats && Eligible(c, budgetId) ==> exists g :: g in r && g.category == c)
  {
    if cats != [] {
      var init, c := cats[..|cats| - 1], cats[|cats| - 1];
      PopularGroupsSound(init, txs, userId, budgetId);
      forall d | d in init ensures d in cats { }
      assert forall d :: d in cats ==> d in init || d == c;
    }
  }

  /** `order_by(desc('count'))` */
  function ByCount(): (Group, Group) -> bool
  {
    (a: Group, b: Group) => a.count >= b.count
  }

  function GroupSuggestions(groups: seq<Group>, confidence: real, reason: Reason, limit: nat): seq<Suggestion>
  {
    var top := Take(SortBy(groups, ByCount()), limit);
    seq(|top|, i requires 0 <= i < |top| =>
      Suggestion(top[i].category.id, top[i].category.name, confidence, reason, top[i].count))
  }

  /** _get_amount_based_suggestions, at confidence 0.5 */
  function AmountStage(cats: seq<BudgetCategory>, txs: seq<Transaction>, userId: int, budgetId: int,
                       amount: int, limit: nat): seq<Suggestion>
  {
    GroupSuggestions(AmountGroups(cats, txs, userId, budgetId, amount), 0.5, SimilarAmount, limit)
  }

  /** _get_popular_categories, at confidence 0.3 */
  function PopularStage(cats: seq<BudgetCategory>, txs: seq<Transaction>, userId: int, budgetId: int,
                        limit: nat): seq<Suggestion>
  {
    GroupSuggestions(PopularGroups(cats, txs, userId, budgetId), 0.3, FrequentlyUsed, limit)
  }

  lemma CountIsPreorder()
    ensures TotalPreorder(ByCount())
  {
  }

  /** A grouped stage offers at most `limit` of its groups' categories,
      each with its group's count, largest count first. */
  lemma GroupSuggestionsSound(groups: seq<Group>, confidence: real, reason: Reason, limit: nat)
    ensures var r := GroupSuggestions(groups, confidence, reason, limit);
      |r| <= limit
      && (forall i :: 0 <= i < |r| ==>
            (r[i].confidence == confidence && r[i].reason == reason
             && exists g :: (g in groups && g.category.id == r[i].categoryId
                             && g.category.name == r[i].categoryName && g.count == r[i].usageCount)))
      && (forall i, j :: 0 <= i < j < |r| ==> r[i].usageCount >= r[j].usageCount)
  {
    var sorted := SortBy(groups, ByCount());
    var r := GroupSuggestions(groups, confidence, reason, limit);
    forall i | 0 <= i < |r|
      ensures exists g :: g in groups && g.category.id == r[i].categoryId
                && g.category.name == r[i].categoryName && g.count == r[i].usageCount
    {
      assert sorted[i] in sorted;
      SortedMember(groups, ByCount(), sorted[i]);
    }
    CountIsPreorder();
    SortBySorted(groups, ByCount());
    forall i, j | 0 <= i < j < |r|
      ensures r[i].usageCount >= r[j].usageCount
    {
      assert ByCount()(sorted[i], sorted[j]);
    }
  }

  /** The amount stage offers eligible categories with similar unsplit
      transactions of the user, counting them, most first. */
  lemma AmountStageSound(cats: seq<BudgetCategory>, txs: seq<Transaction>, userId: int, budgetId: int,
                         amount: int, limit: nat)
    ensures var r := AmountStage(cats, txs, userId, budgetId, amount, limit);
      |r| <= limit
      && (forall i :: 0 <= i < |r| ==>
            (r[i].confidence == 0.5 && r[i].reason == SimilarAmount && Offers(cats, budgetId, r[i])
             && r[i].usageCount == CountOf(txs, AmountMatchOf(userId, r[i].categoryId, amount)) > 0))
      && (forall i, j :: 0 <= i < j < |r| ==> r[i].usageCount >= r[j].usageCount)
  {
    AmountGroupsSound(cats, txs, userId, budgetId, amount);
    GroupSuggestionsSound(AmountGroups(cats, txs, userId, budgetId, amount), 0.5, SimilarAmount, limit);
  }

  /** The fallback stage offers eligible categories with the user's
      transaction count in each, most used first; when `limit` allows, it
      offers every eligible category. */
  lemma PopularStageSound(cats: seq<BudgetCategory>, txs: seq<Transaction>, userId: int, budgetId: int,
                          limit: nat)
    ensures var r := PopularStage(cats, txs, userId, budgetId, limit);
      |r| <= limit
      && (forall i :: 0 <= i < |r| ==>
            (r[i].confidence == 0.3 && r[i].reason == FrequentlyUsed && Offers(cats, budgetId, r[i])
             && r[i].usageCount == CountOf(txs, UsedBy(userId, r[i].categoryId))))
      && (forall i, j :: 0 <= i < j < |r| ==> r[i].usageCount >= r[j].usageCount)
      && (limit >= |cats| ==> forall c :: c in cats && Eligible(c, budgetId) ==>
            exists i :: 0 <= i < |r| && r[i].categoryId == c.id)
  {
    var groups := PopularGroups(cats, txs, userId, budgetId);
    PopularGroupsSound(cats, txs, userId, budgetId);
    GroupSuggestionsSound(groups, 0.3, FrequentlyUsed, limit);
    var sorted := SortBy(groups, ByCount());
    var r := PopularStage(cats, txs, userId, budgetId, limit);
    if limit >= |cats| {
      assert |groups| <= |cats| by { PopularGroupsLength(cats, txs, userId, budgetId); }
      forall c | c in cats && Eligible(c, budgetId)
        ensures exists i :: 0 <= i < |r| && r[i].categoryId == c.id
      {
        var g :| g in groups && g.category == c;
        SortByPermutes(groups, ByCount());
        assert g in multiset(sorted);
        var i :| 0 <= i < |sorted| && sorted[i] == g;
        assert r[i].categoryId == c.id;
      }
    }
  }

  lemma {:induction false} PopularGroupsLength(cats: seq<BudgetCategory>, txs: seq<Transaction>, userId: int, budgetId: int)
    ensures |PopularGroups(cats, txs, userId, budgetId)| <= |cats|
  {
    if cats != [] {
      PopularGroupsLength(cats[..|cats| - 1], txs, userId, budgetId);
    }
  }

  // ---------------------------------------------------------------------
  // De-duplication and the whole pipeline

  function Ids(s: seq<Suggestion>): set<int>
  {
    set x | x in s :: x.categoryId
  }

  predicate DistinctIds(s: seq<Suggestion>)
  {
    forall i, j :: 0 <= i < j < |s| ==> s[i].categoryId != s[j].categoryId
  }

  /** The first suggestion of each category, in order. */
  function Dedup(s: seq<Suggestion>): seq<Suggestion>
  {
    if s == [] then []
    else
      var p := Dedup(s[..|s| - 1]);
      if s[|s| - 1].categoryId in Ids(p) then p else p + [s[|s| - 1]]
  }

  /** Each element of r is the first of its category in s. */
  ghost predicate FirstOfCategory(s: seq<Suggestion>, r: seq<Suggestion>)
  {
    forall i :: 0 <= i < |r| ==>
      exists j :: (0 <= j < |s| && s[j] == r[i] && forall k :: 0 <= k < j ==> s[k].categoryId != r[i].categoryId)
  }

  /** De-duplication keeps, for each category that occurs, exactly its
      first suggestion, and in their order of appearance. */
  lemma DedupSound(s: seq<Suggestion>)
    ensures DistinctIds(Dedup(s)) && Ids(Dedup(s)) == Ids(s) && |Dedup(s)| <= |s|
    ensures FirstOfCategory(s, Dedup(s))
    ensures OrderKept(s, Dedup(s))
  {
    DedupIds(s);
    DedupFirst(s);
    DedupInOrder(s);
  }

  lemma IdsSnoc(s: seq<Suggestion>, x: Suggestion)
    ensures Ids(s + [x]) == Ids(s) + {x.categoryId}
  {
    assert forall y :: y in s + [x] <==> y in s || y == x;
  }

  /** No category twice, and every category of the input kept. */
  lemma {:induction false} DedupIds(s: seq<Suggestion>)
    ensures DistinctIds(Dedup(s)) && Ids(Dedup(s)) == Ids(s) && |Dedup(s)| <= |s|
  {
    if s != [] {
      var s' := s[..|s| - 1];
      var x := s[|s| - 1];
      DedupIds(s');
      var p := Dedup(s');
      assert s == s' + [x];
      IdsSnoc(s', x);
      if x.categoryId !in Ids(p) {
        IdsSnoc(p, x);
        var r := p + [x];
        forall i, j | 0 <= i < j < |r| ensures r[i].categoryId != r[j].categoryId {
          if j == |p| {
            assert p[i] in p;
          }
        }
      }
    }
  }

  lemma {:induction false} DedupFirst(s: seq<Suggestion>)
    ensures FirstOfCategory(s, Dedup(s))
  {
    if s != [] {
      var s' := s[..|s| - 1];
      var x := s[|s| - 1];
      DedupFirst(s');
      DedupIds(s');
      var p := Dedup(s');
      var r := Dedup(s);
      assert r == p || r == p + [x];
      forall i | 0 <= i < |r|
        ensures exists j :: (0 <= j < |s| && s[j] == r[i]
                             && forall k :: 0 <= k < j ==> s[k].categoryId != r[i].categoryId)
      {
        if i < |p| {
          assert r[i] == p[i];
          var j :| 0 <= j < |s'| && s'[j] == p[i] && forall k :: 0 <= k < j ==> s'[k].categoryId != p[i].categoryId;
          assert s[j] == r[i];
          assert forall k :: 0 <= k < j ==> s[k] == s'[k];
        } else {
          assert r[i] == x && x.categoryId !in Ids(p);
          forall k | 0 <= k < |s| - 1 ensures s[k].categoryId != x.categoryId {
            assert s'[k] in s';
            assert s[k] == s'[k];
          }
        }
      }
    }
  }

  lemma {:induction false} DedupInOrder(s: seq<Suggestion>)
    ensures OrderKept(s, Dedup(s))
  {
    if s != [] {
      var s' := s[..|s| - 1];
      var x := s[|s| - 1];
      assert s == s' + [x];
      DedupInOrder(s');
      var p := Dedup(s');
      if x.categoryId in Ids(p) {
        OrderKeptSnoc(s', x, p);
      } else {
        DedupFirst(s');
        forall i | 0 <= i < |p| ensures p[i] in s' {
          var j :| 0 <= j < |s'| && s'[j] == p[i] && forall k :: 0 <= k < j ==> s'[k].categoryId != p[i].categoryId;
        }
        OrderKeptSnocBoth(s', x, p);
      }
    }
  }

  /** The de-duplication loop with its `seen` set. */
  method DedupLoop(s: seq<Suggestion>) returns (r: seq<Suggestion>)
    ensures r == Dedup(s)
  {
    r := [];
    var seen: set<int> := {};
    var i := 0;
    while i < |s|
      invariant 0 <= i <= |s|
      invariant r == Dedup(s[..i])
      invariant seen == Ids(r)
    {
      assert s[..i + 1][..i] == s[..i];
      if s[i].categoryId !in seen {
        assert Ids(r + [s[i]]) == Ids(r) + {s[i].categoryId};
        seen := seen + {s[i].categoryId};
        r := r + [s[i]];
      }
      i := i + 1;
    }
    assert s[..i] == s;
  }

  const MinKeywordLength := 3

  /** Stage 2 runs when places are left and the note has keywords. */
  function WithKeywords(s: seq<Suggestion>, ps: seq<Pattern>, cats: seq<BudgetCategory>, userId: int,
                        budgetId: int, keywords: seq<string>, limit: nat): seq<Suggestion>
  {
    if |s| < limit && keywords != [] then s + KeywordStage(ps, cats, userId, budgetId, keywords, limit - |s|) else s
  }

  /** Stage 3 runs when places are left and an amount other than 0 is given. */
  function WithAmount(s: seq<Suggestion>, cats: seq<BudgetCategory>, txs: seq<Transaction>, userId: int,
                      budgetId: int, amount: Option<int>, limit: nat): seq<Suggestion>
  {
    if |s| < limit && amount.Some? && amount.value != 0
    then s + AmountStage(cats, txs, userId, budgetId, amount.value, limit - |s|) else s
  }

  /** Stage 4 runs when places are left. */
  function WithPopular(s: seq<Suggestion>, cats: seq<BudgetCategory>, txs: seq<Transaction>, userId: int,
                       budgetId: int, limit: nat): seq<Suggestion>
  {
    if |s| < limit then s + PopularStage(cats, txs, userId, budgetId, limit - |s|) else s
  }

  /** Everything the four stages offer, in stage order, before de-duplication. */
  function Gathered(ps: seq<Pattern>, cats: seq<BudgetCategory>, txs: seq<Transaction>,
                    userId: int, budgetId: int, notes: string, amount: Option<int>, limit: nat): seq<Suggestion>
  {
    var s1 := ExactStage(ps, cats, userId, budgetId, Normalize(notes), limit);
    var s2 := WithKeywords(s1, ps, cats, userId, budgetId, Keywords(notes, MinKeywordLength), limit);
    var s3 := WithAmount(s2, cats, txs, userId, budgetId, amount, limit);
    WithPopular(s3, cats, txs, userId, budgetId, limit)
  }

  /** get_suggestions: a blank note gets the most used categories alone. */
  function Suggestions(ps: seq<Pattern>, cats: seq<BudgetCategory>, txs: seq<Transaction>,
                       userId: int, budgetId: int, notes: string, amount: Option<int>, limit: nat): seq<Suggestion>
  {
    if Blank(notes) then PopularStage(cats, txs, userId, budgetId, limit)
    else Take(Dedup(Gathered(ps, cats, txs, userId, budgetId, notes, amount, limit)), limit)
  }

  /** get_suggestions, stage by stage. */
  method GetSuggestions(ps: seq<Pattern>, cats: seq<BudgetCategory>, txs: seq<Transaction>,
                        userId: int, budgetId: int, notes: string, amount: Option<int>, limit: nat)
    returns (r: seq<Suggestion>)
    ensures r == Suggestions(ps, cats, txs, userId, budgetId, notes, amount, limit)
  {
    var blank := BlankCheck(notes);
    if |notes| == 0 || blank {
      return PopularStage(cats, txs, userId, budgetId, limit);
    }
    var gathered := GatherStages(ps, cats, txs, userId, budgetId, notes, amount, limit);
    var unique := DedupLoop(gathered);
    r := Take(unique, limit);
  }

  /** The four stages of get_suggestions, each asked for the places left. */
  method GatherStages(ps: seq<Pattern>, cats: seq<BudgetCategory>, txs: seq<Transaction>,
                      userId: int, budgetId: int, notes: string, amount: Option<int>, limit: nat)
    returns (gathered: seq<Suggestion>)
    ensures gathered == Gathered(ps, cats, txs, userId, budgetId, notes, amount, limit)
  {
    var text := Normalize(notes);
    var keywords := Keywords(notes, MinKeywordLength);
    gathered := ExactStage(ps, cats, userId, budgetId, text, limit);
    gathered := KeywordStep(gathered, ps, cats, userId, budgetId, keywords, limit);
    gathered := AmountStep(gathered, cats, txs, userId, budgetId, amount, limit);
    gathered := PopularStep(gathered, cats, txs, userId, budgetId, limit);
  }

  /** The amount stage, when an amount is given, for the places left. */
  method AmountStep(s: seq<Suggestion>, cats: seq<BudgetCategory>, txs: seq<Transaction>, userId: int,
                    budgetId: int, amount: Option<int>, limit: nat) returns (r: seq<Suggestion>)
    ensures r == WithAmount(s, cats, txs, userId, budgetId, amount, limit)
  {
    r := s;
    if |s| < limit && amount.Some? && amount.value != 0 {
      r := s + AmountStage(cats, txs, userId, budgetId, amount.value, limit - |s|);
    }
  }

  /** The popular categories for the places still left. */
  method PopularStep(s: seq<Suggestion>, cats: seq<BudgetCategory>, txs: seq<Transaction>, userId: int,
                     budgetId: int, limit: nat) returns (r: seq<Suggestion>)
    ensures r == WithPopular(s, cats, txs, userId, budgetId, limit)
  {
    r := s;
    if |s| < limit {
      r := s + PopularStage(cats, txs, userId, budgetId, limit - |s|);
    }
  }

  /** The keyword stage, asked for the places left after the exact one. */
  method KeywordStep(s: seq<Suggestion>, ps: seq<Pattern>, cats: seq<BudgetCategory>, userId: int,
                     budgetId: int, keywords: seq<string>, limit: nat) returns (r: seq<Suggestion>)
    ensures r == WithKeywords(s, ps, cats, userId, budgetId, keywords, limit)
  {
    r := s;
    if |s| < limit && keywords != [] {
      var more := KeywordMatches(ps, cats, userId, budgetId, keywords, limit - |s|);
      r := s + more;
    }
  }

  /** Every suggestion names an eligible category of the budget. */
  ghost predicate AllOffered(cats: seq<BudgetCategory>, budgetId: int, s: seq<Suggestion>)
  {
    forall i :: 0 <= i < |s| ==> Offers(cats, budgetId, s[i])
  }

  /** Every confidence lies in [0, 1], as the response schema demands. */
  ghost predicate ConfidencesValid(s: seq<Suggestion>)
  {
    forall i :: 0 <= i < |s| ==> 0.0 <= s[i].confidence <= 1.0
  }

  lemma AppendOffered(cats: seq<BudgetCategory>, budgetId: int, s: seq<Suggestion>, t: seq<Suggestion>)
    requires AllOffered(cats, budgetId, s) && AllOffered(cats, budgetId, t)
    ensures AllOffered(cats, budgetId, s + t)
  {
    forall i | 0 <= i < |s + t| ensures Offers(cats, budgetId, (s + t)[i]) {
      if i >= |s| {
        assert (s + t)[i] == t[i - |s|];
      }
    }
  }

  lemma AppendConfidences(s: seq<Suggestion>, t: seq<Suggestion>)
    requires ConfidencesValid(s) && ConfidencesValid(t)
    ensures ConfidencesValid(s + t)
  {
    forall i | 0 <= i < |s + t| ensures 0.0 <= (s + t)[i].confidence <= 1.0 {
      if i >= |s| {
        assert (s + t)[i] == t[i - |s|];
      }
    }
  }

  /** A prefix of the de-duplicated list keeps a property every gathered
      suggestion has. */
  lemma DedupPrefix(g: seq<Suggestion>, n: nat, cats: seq<BudgetCategory>, budgetId: int)
    ensures AllOffered(cats, budgetId, g) ==> AllOffered(cats, budgetId, Take(Dedup(g), n))
    ensures ConfidencesValid(g) ==> ConfidencesValid(Take(Dedup(g), n))
  {
    DedupFirst(g);
    var d := Dedup(g);
    var r := Take(d, n);
    forall i | 0 <= i < |r| ensures exists j :: 0 <= j < |g| && g[j] == r[i] {
      assert r[i] == d[i];
      var j :| 0 <= j < |g| && g[j] == d[i] && forall k :: 0 <= k < j ==> g[k].categoryId != d[i].categoryId;
    }
  }

  lemma KeywordStageOffered(ps: seq<Pattern>, cats: seq<BudgetCategory>, userId: int, budgetId: int,
                            keywords: seq<string>, limit: nat)
    requires keywords != []
    ensures AllOffered(cats, budgetId, KeywordStage(ps, cats, userId, budgetId, keywords, limit))
  {
    KeywordStageSound(ps, cats, userId, budgetId, keywords, limit);
  }

  lemma AmountStageValid(cats: seq<BudgetCategory>, txs: seq<Transaction>, userId: int, budgetId: int,
                         amount: int, limit: nat)
    ensures var r := AmountStage(cats, txs, userId, budgetId, amount, limit);
      AllOffered(cats, budgetId, r) && ConfidencesValid(r)
  {
    AmountStageSound(cats, txs, userId, budgetId, amount, limit);
  }

  lemma PopularStageValid(cats: seq<BudgetCategory>, txs: seq<Transaction>, userId: int, budgetId: int,
                          limit: nat)
    ensures var r := PopularStage(cats, txs, userId, budgetId, limit);
      |r| <= limit && AllOffered(cats, budgetId, r) && ConfidencesValid(r)
  {
    PopularStageSound(cats, txs, userId, budgetId, limit);
  }

  lemma PopularStageOffered(cats: seq<BudgetCategory>, txs: seq<Transaction>, userId: int, budgetId: int,
                            limit: nat)
    ensures AllOffered(cats, budgetId, PopularStage(cats, txs, userId, budgetId, limit))
  {
    PopularStageValid(cats, txs, userId, budgetId, limit);
  }

  lemma GatheredOffered(ps: seq<Pattern>, cats: seq<BudgetCategory>, txs: seq<Transaction>,
                        userId: int, budgetId: int, notes: string, amount: Option<int>, limit: nat)
    ensures AllOffered(cats, budgetId, Gathered(ps, cats, txs, userId, budgetId, notes, amount, limit))
  {
    var s1 := ExactStage(ps, cats, userId, budgetId, Normalize(notes), limit);
    ExactStageSound(ps, cats, userId, budgetId, Normalize(notes), limit);
    var keywords := Keywords(notes, MinKeywordLength);
    WithKeywordsOffered(s1, ps, cats, userId, budgetId, keywords, limit);
    var s2 := WithKeywords(s1, ps, cats, userId, budgetId, keywords, limit);
    WithAmountOffered(s2, cats, txs, userId, budgetId, amount, limit);
    var s3 := WithAmount(s2, cats, txs, userId, budgetId, amount, limit);
    WithPopularOffered(s3, cats, txs, userId, budgetId, limit);
  }

  lemma WithKeywordsOffered(s: seq<Suggestion>, ps: seq<Pattern>, cats: seq<BudgetCategory>, userId: int,
                            budgetId: int, keywords: seq<string>, limit: nat)
    requires AllOffered(cats, budgetId, s)
    ensures AllOffered(cats, budgetId, WithKeywords(s, ps, cats, userId, budgetId, keywords, limit))
  {
    if |s| < limit && keywords != [] {
      KeywordStageOffered(ps, cats, userId, budgetId, keywords, limit - |s|);
      AppendOffered(cats, budgetId, s, KeywordStage(ps, cats, userId, budgetId, keywords, limit - |s|));
    }
  }

  lemma WithAmountOffered(s: seq<Suggestion>, cats: seq<BudgetCategory>, txs: seq<Transaction>, userId: int,
                          budgetId: int, amount: Option<int>, limit: nat)
    requires AllOffered(cats, budgetId, s)
    ensures AllOffered(cats, budgetId, WithAmount(s, cats, txs, userId, budgetId, amount, limit))
  {
    if |s| < limit && amount.Some? && amount.value != 0 {
      AmountStageValid(cats, txs, userId, budgetId, amount.value, limit - |s|);
      AppendOffered(cats, budgetId, s, AmountStage(cats, txs, userId, budgetId, amount.value, limit - |s|));
    }
  }

  lemma WithPopularOffered(s: seq<Suggestion>, cats: seq<BudgetCategory>, txs: seq<Transaction>, userId: int,
                           budgetId: int, limit: nat)
    requires AllOffered(cats, budgetId, s)
    ensures AllOffered(cats, budgetId, WithPopular(s, cats, txs, userId, budgetId, limit))
  {
    var w := WithPopular(s, cats, txs, userId, budgetId, limit);
    if |s| < limit {
      var n: nat := limit - |s|;
      var t := PopularStage(cats, txs, userId, budgetId, n);
      assert w == s + t;
      PopularStageOffered(cats, txs, userId, budgetId, n);
      AppendOffered(cats, budgetId, s, t);
    } else {
      assert w == s;
    }
  }

  /** Keyword confidences are between 0 and 1 once pattern confidences
      are positive. */
  lemma KeywordConfidences(ps: seq<Pattern>, cats: seq<BudgetCategory>, userId: int, budgetId: int,
                           keywords: seq<string>, limit: nat)
    requires ConfidenceInRange(ps) && keywords != []
    ensures ConfidencesValid(KeywordStage(ps, cats, userId, budgetId, keywords, limit))
  {
    var hits := Hits(ps, cats, userId, budgetId, keywords);
    var sorted := SortBy(Accumulate(hits), ByScore());
    HitsSound(ps, cats, userId, budgetId, keywords);
    var r := KeywordStage(ps, cats, userId, budgetId, keywords, limit);
    forall i | 0 <= i < |r| ensures 0.0 <= r[i].confidence <= 1.0 {
      assert r[i] == KeywordSuggestion(sorted[i], |keywords|);
      assert sorted[i] in sorted;
      RankedTally(hits, cats, budgetId, sorted[i]);
      HitWeightsNonNegative(ps, hits, userId, CategoryHits(hits, sorted[i].category.id));
      KeywordConfidenceRange(sorted[i].score, |keywords|);
    }
  }

  lemma KeywordConfidenceRange(score: int, n: nat)
    requires score >= 0 && n > 0
    ensures 0.0 <= KeywordConfidence(score, n) <= 1.0
  {
    DivisionMonotone(score as real, 0.0, (100 * n) as real);
  }

  lemma HitWeightsNonNegative(ps: seq<Pattern>, hits: seq<Hit>, userId: int, hs: seq<Hit>)
    requires ConfidenceInRange(ps)
    requires forall h :: h in hits ==> exists p :: p in ps && h.weight == Weight(p)
    requires forall h :: h in hs ==> h in hits
    ensures SumOf(hs, HitWeight()) >= 0
  {
    forall i | 0 <= i < |hs| ensures HitWeight()(hs[i]) >= 0 {
      assert hs[i] in hits;
      var p :| p in ps && hs[i].weight == Weight(p);
      var k :| 0 <= k < |ps| && ps[k] == p;
    }
    SumOfNonNegative(hs, HitWeight());
  }

  lemma GatheredConfidences(ps: seq<Pattern>, cats: seq<BudgetCategory>, txs: seq<Transaction>,
                            userId: int, budgetId: int, notes: string, amount: Option<int>, limit: nat)
    requires ConfidenceInRange(ps)
    ensures ConfidencesValid(Gathered(ps, cats, txs, userId, budgetId, notes, amount, limit))
  {
    var s1 := ExactStage(ps, cats, userId, budgetId, Normalize(notes), limit);
    ExactConfidences(ps, cats, userId, budgetId, notes, limit);
    var keywords := Keywords(notes, MinKeywordLength);
    WithKeywordsConfidences(s1, ps, cats, userId, budgetId, keywords, limit);
    var s2 := WithKeywords(s1, ps, cats, userId, budgetId, keywords, limit);
    WithAmountConfidences(s2, cats, txs, userId, budgetId, amount, limit);
    var s3 := WithAmount(s2, cats, txs, userId, budgetId, amount, limit);
    WithPopularConfidences(s3, cats, txs, userId, budgetId, limit);
  }

  lemma ExactConfidences(ps: seq<Pattern>, cats: seq<BudgetCategory>, userId: int, budgetId: int,
                         notes: string, limit: nat)
    requires ConfidenceInRange(ps)
    ensures ConfidencesValid(ExactStage(ps, cats, userId, budgetId, Normalize(notes), limit))
  {
    var s1 := ExactStage(ps, cats, userId, budgetId, Normalize(notes), limit);
    ExactStageSound(ps, cats, userId, budgetId, Normalize(notes), limit);
    forall i | 0 <= i < |s1| ensures 0.0 <= s1[i].confidence <= 1.0 {
      var p :| p in ps && Matches(p, userId, Normalize(notes)) && p.categoryId == s1[i].categoryId
               && s1[i].confidence == Tenths(p.confidence) && s1[i].usageCount == p.usage;
      var k :| 0 <= k < |ps| && ps[k] == p;
    }
  }

  lemma WithKeywordsConfidences(s: seq<Suggestion>, ps: seq<Pattern>, cats: seq<BudgetCategory>, userId: int,
                                budgetId: int, keywords: seq<string>, limit: nat)
    requires ConfidenceInRange(ps) && ConfidencesValid(s)
    ensures ConfidencesValid(WithKeywords(s, ps, cats, userId, budgetId, keywords, limit))
  {
    if |s| < limit && keywords != [] {
      var k := KeywordStage(ps, cats, userId, budgetId, keywords, limit - |s|);
      KeywordConfidences(ps, cats, userId, budgetId, keywords, limit - |s|);
      AppendConfidences(s, k);
      assert WithKeywords(s, ps, cats, userId, budgetId, keywords, limit) == s + k;
    }
  }

  lemma WithAmountConfidences(s: seq<Suggestion>, cats: seq<BudgetCategory>, txs: seq<Transaction>, userId: int,
                              budgetId: int, amount: Option<int>, limit: nat)
    requires ConfidencesValid(s)
    ensures ConfidencesValid(WithAmount(s, cats, txs, userId, budgetId, amount, limit))
  {
    if |s| < limit && amount.Some? && amount.value != 0 {
      AmountStageValid(cats, txs, userId, budgetId, amount.value, limit - |s|);
      AppendConfidences(s, AmountStage(cats, txs, userId, budgetId, amount.value, limit - |s|));
    }
  }

  lemma WithPopularConfidences(s: seq<Suggestion>, cats: seq<BudgetCategory>, txs: seq<Transaction>, userId: int,
                               budgetId: int, limit: nat)
    requires ConfidencesValid(s)
    ensures ConfidencesValid(WithPopular(s, cats, txs, userId, budgetId, limit))
  {
    if |s| < limit {
      PopularStageValid(cats, txs, userId, budgetId, limit - |s|);
      AppendConfidences(s, PopularStage(cats, txs, userId, budgetId, limit - |s|));
    }
  }

  /** Every answer has at most `limit` entries, each naming an eligible
      category of the budget with a confidence between 0 and 1 (once the
      stored confidences are in range); for a note with text no category
      appears twice. */
  lemma SuggestionsSound(ps: seq<Pattern>, cats: seq<BudgetCategory>, txs: seq<Transaction>,
                         userId: int, budgetId: int, notes: string, amount: Option<int>, limit: nat)
    ensures var r := Suggestions(ps, cats, txs, userId, budgetId, notes, amount, limit);
      |r| <= limit && AllOffered(cats, budgetId, r)
      && (ConfidenceInRange(ps) ==> ConfidencesValid(r))
      && (!Blank(notes) ==> DistinctIds(r))
  {
    if Blank(notes) {
      PopularStageValid(cats, txs, userId, budgetId, limit);
    } else {
      var g := Gathered(ps, cats, txs, userId, budgetId, notes, amount, limit);
      GatheredOffered(ps, cats, txs, userId, budgetId, notes, amount, limit);
      if ConfidenceInRange(ps) {
        GatheredConfidences(ps, cats, txs, userId, budgetId, notes, amount, limit);
      }
      DedupedSound(g, cats, budgetId, limit);
    }
  }

  /** The first `limit` de-duplicated suggestions keep what every gathered
      one has, and name each category once. */
  lemma DedupedSound(g: seq<Suggestion>, cats: seq<BudgetCategory>, budgetId: int, limit: nat)
    requires AllOffered(cats, budgetId, g)
    ensures var r := Take(Dedup(g), limit);
      |r| <= limit && AllOffered(cats, budgetId, r)
      && (ConfidencesValid(g) ==> ConfidencesValid(r)) && DistinctIds(r)
  {
    DedupPrefix(g, limit, cats, budgetId);
    DedupSound(g);
    var d := Dedup(g);
    var r := Take(d, limit);
    forall i, j | 0 <= i < j < |r| ensures r[i].categoryId != r[j].categoryId {
      assert r[i] == d[i] && r[j] == d[j];
    }
  }
}
