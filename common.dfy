/** Values shared by every module of the model: optional values, the
    error outcomes the HTTP handlers raise, sums over rows, and the small
    amount of string handling (ASCII case folding, whitespace classes,
    substring search, ordering) the source takes from its languages'
    standard libraries. */
module Common {

  datatype Option<T> = None | Some(value: T)

  /** The error a handler raises instead of answering: a 404 naming what
      was not found, a 400 with its detail, the 422 of request
      validation naming the field, and the 500 of an exception nothing
      catches, naming its Python exception class. */
  datatype ApiError =
    NotFound(what: string) | BadRequest(detail: string) | Invalid(field: string) | Raised(exception: string)

  datatype Result<T> = Ok(value: T) | Err(error: ApiError)

  // ---------------------------------------------------------------------
  // Sums over rows, as a left fold (the order a Python loop or a
  // JavaScript reduce adds them in)

  function SumOf<T>(s: seq<T>, f: T -> int): int
  {
    if s == [] then 0 else SumOf(s[..|s| - 1], f) + f(s[|s| - 1])
  }

  lemma {:induction false} SumOfAppend<T>(s: seq<T>, t: seq<T>, f: T -> int)
    ensures SumOf(s + t, f) == SumOf(s, f) + SumOf(t, f)
  {
    if t == [] {
      assert s + t == s;
    } else {
      assert (s + t)[..|s + t| - 1] == s + t[..|t| - 1];
      SumOfAppend(s, t[..|t| - 1], f);
    }
  }

  lemma SumOfSnoc<T>(s: seq<T>, x: T, f: T -> int)
    ensures SumOf(s + [x], f) == SumOf(s, f) + f(x)
  {
    assert (s + [x])[..|s|] == s;
  }

  /** A prefix extended by one more element, the step of every summing loop. */
  lemma SumOfPrefix<T>(s: seq<T>, i: nat, f: T -> int)
    requires i < |s|
    ensures SumOf(s[..i + 1], f) == SumOf(s[..i], f) + f(s[i])
  {
    assert s[..i + 1][..i] == s[..i];
  }

  /** Adding terms that are all zero or more never lowers a sum. */
  lemma {:induction false} SumOfNonNegative<T>(s: seq<T>, f: T -> int)
    requires forall i :: 0 <= i < |s| ==> f(s[i]) >= 0
    ensures SumOf(s, f) >= 0
  {
    if s != [] {
      SumOfNonNegative(s[..|s| - 1], f);
    }
  }

  /** Number of elements that satisfy p. */
  function CountOf<T>(s: seq<T>, p: T -> bool): nat
  {
    if s == [] then 0 else CountOf(s[..|s| - 1], p) + (if p(s[|s| - 1]) then 1 else 0)
  }

  lemma {:induction false} CountOfAppend<T>(s: seq<T>, t: seq<T>, p: T -> bool)
    ensures CountOf(s + t, p) == CountOf(s, p) + CountOf(t, p)
  {
    if t == [] {
      assert s + t == s;
    } else {
      assert (s + t)[..|s + t| - 1] == s + t[..|t| - 1];
      CountOfAppend(s, t[..|t| - 1], p);
    }
  }

  lemma {:induction false} CountOfAtMost<T>(s: seq<T>, p: T -> bool)
    ensures CountOf(s, p) <= |s|
  {
    if s != [] {
      CountOfAtMost(s[..|s| - 1], p);
    }
  }

  /** Elements that satisfy p, in their original order. */
  function Filter<T>(s: seq<T>, p: T -> bool): (r: seq<T>)
    ensures |r| <= |s|
    ensures forall x :: x in r ==> x in s && p(x)
  {
    if s == [] then [] else
      Filter(s[..|s| - 1], p) + (if p(s[|s| - 1]) then [s[|s| - 1]] else [])
  }

  lemma FilterSnoc<T>(s: seq<T>, x: T, p: T -> bool)
    ensures Filter(s + [x], p) == Filter(s, p) + (if p(x) then [x] else [])
  {
    assert (s + [x])[..|s|] == s;
  }

  /** A prefix extended by one more element, the step of every filtering loop. */
  lemma FilterPrefix<T>(s: seq<T>, i: nat, p: T -> bool)
    requires i < |s|
    ensures Filter(s[..i + 1], p) == Filter(s[..i], p) + (if p(s[i]) then [s[i]] else [])
  {
    assert s[..i + 1][..i] == s[..i];
  }

  lemma {:induction false} FilterAppend<T>(s: seq<T>, t: seq<T>, p: T -> bool)
    ensures Filter(s + t, p) == Filter(s, p) + Filter(t, p)
  {
    if t == [] {
      assert s + t == s;
    } else {
      assert (s + t)[..|s + t| - 1] == s + t[..|t| - 1];
      FilterAppend(s, t[..|t| - 1], p);
    }
  }

  lemma {:induction false} FilterLength<T>(s: seq<T>, p: T -> bool)
    ensures |Filter(s, p)| == CountOf(s, p)
  {
    if s != [] {
      FilterLength(s[..|s| - 1], p);
    }
  }

  /** Nothing is kept when no element satisfies p. */
  lemma {:induction false} FilterNone<T>(s: seq<T>, p: T -> bool)
    requires forall x :: x in s ==> !p(x)
    ensures Filter(s, p) == []
  {
    if s != [] {
      FilterNone(s[..|s| - 1], p);
    }
  }

  /** Nothing is dropped when every element satisfies p. */
  lemma {:induction false} FilterAll<T>(s: seq<T>, p: T -> bool)
    requires forall x :: x in s ==> p(x)
    ensures Filter(s, p) == s
  {
    if s != [] {
      var init, x := s[..|s| - 1], s[|s| - 1];
      forall y | y in init ensures p(y) {
        assert y in s;
      }
      FilterAll(init, p);
      assert init + [x] == s;
      assert p(x) by { assert x in s; }
      assert Filter(s, p) == Filter(init, p) + [x];
    }
  }

  /** Filtering by q after p is filtering by q alone when q implies p. */
  lemma {:induction false} FilterOfFilter<T>(s: seq<T>, p: T -> bool, q: T -> bool)
    requires forall x :: x in s && q(x) ==> p(x)
    ensures Filter(Filter(s, p), q) == Filter(s, q)
  {
    if s != [] {
      var init, x := s[..|s| - 1], s[|s| - 1];
      FilterOfFilter(init, p, q);
      FilterAppend(Filter(init, p), if p(x) then [x] else [], q);
      assert Filter([x], q) == if q(x) then [x] else [] by {
        assert [x][..0] == [];
      }
    }
  }

  /** A sum over the elements satisfying r splits into the sums over those
      satisfying p and those satisfying q, when r is p or q and never
      both. */
  lemma {:induction false} SumOfFilterSplit<T>(s: seq<T>, p: T -> bool, q: T -> bool, r: T -> bool, f: T -> int)
    requires forall x :: x in s ==> (r(x) <==> p(x) || q(x)) && !(p(x) && q(x))
    ensures SumOf(Filter(s, r), f) == SumOf(Filter(s, p), f) + SumOf(Filter(s, q), f)
  {
    if s != [] {
      var init, x := s[..|s| - 1], s[|s| - 1];
      SumOfFilterSplit(init, p, q, r, f);
      assert x in s;
      if p(x) {
        assert Filter(s, r) == Filter(init, r) + [x] && Filter(s, p) == Filter(init, p) + [x];
        assert Filter(s, q) == Filter(init, q);
        SumOfSnoc(Filter(init, r), x, f);
        SumOfSnoc(Filter(init, p), x, f);
        assert SumOf(Filter(s, r), f) == SumOf(Filter(init, r), f) + f(x);
        assert SumOf(Filter(s, p), f) == SumOf(Filter(init, p), f) + f(x);
      } else if q(x) {
        assert Filter(s, r) == Filter(init, r) + [x] && Filter(s, q) == Filter(init, q) + [x];
        assert Filter(s, p) == Filter(init, p);
        SumOfSnoc(Filter(init, r), x, f);
        SumOfSnoc(Filter(init, q), x, f);
      } else {
        assert Filter(s, r) == Filter(init, r) && Filter(s, p) == Filter(init, p);
        assert Filter(s, q) == Filter(init, q);
      }
    }
  }

  /** What p keeps and what its complement q keeps are, together, all of s. */
  lemma {:induction false} FilterComplement<T>(s: seq<T>, p: T -> bool, q: T -> bool)
    requires forall x :: x in s ==> (q(x) <==> !p(x))
    ensures multiset(Filter(s, p)) + multiset(Filter(s, q)) == multiset(s)
  {
    if s != [] {
      var init, x := s[..|s| - 1], s[|s| - 1];
      assert init + [x] == s;
      forall y | y in init ensures q(y) <==> !p(y) { assert y in s; }
      FilterComplement(init, p, q);
      assert x in s;
    }
  }

  /** Every element of s that satisfies p is kept. */
  lemma {:induction false} FilterKeeps<T>(s: seq<T>, p: T -> bool, x: T)
    requires x in s && p(x)
    ensures x in Filter(s, p)
  {
    if s[|s| - 1] != x {
      assert x in s[..|s| - 1];
      FilterKeeps(s[..|s| - 1], p, x);
    }
  }

  /** u occurs in s before v. */
  ghost predicate Before<T>(s: seq<T>, u: T, v: T)
  {
    exists a, b :: 0 <= a < b < |s| && s[a] == u && s[b] == v
  }

  /** Any two elements of r occur in s in the same order. */
  ghost predicate OrderKept<T>(s: seq<T>, r: seq<T>)
  {
    forall i, j :: 0 <= i < j < |r| ==> Before(s, r[i], r[j])
  }

  /** A later element of s leaves the order of r as it was ... */
  lemma OrderKeptSnoc<T>(s: seq<T>, x: T, r: seq<T>)
    requires OrderKept(s, r)
    ensures OrderKept(s + [x], r)
  {
    forall i, j | 0 <= i < j < |r| ensures Before(s + [x], r[i], r[j]) {
      assert Before(s, r[i], r[j]);
      var a, b :| 0 <= a < b < |s| && s[a] == r[i] && s[b] == r[j];
      assert (s + [x])[a] == r[i] && (s + [x])[b] == r[j];
    }
  }

  /** ... and may come last in r as well, after elements of s. */
  lemma OrderKeptSnocBoth<T>(s: seq<T>, x: T, r: seq<T>)
    requires OrderKept(s, r)
    requires forall i :: 0 <= i < |r| ==> r[i] in s
    ensures OrderKept(s + [x], r + [x])
  {
    var s1, r1 := s + [x], r + [x];
    forall i, j | 0 <= i < j < |r1| ensures Before(s1, r1[i], r1[j]) {
      if j < |r| {
        assert Before(s, r[i], r[j]);
        var a, b :| 0 <= a < b < |s| && s[a] == r[i] && s[b] == r[j];
        assert s1[a] == r1[i] && s1[b] == r1[j];
      } else {
        assert r1[i] == r[i] && r[i] in s;
        var a :| 0 <= a < |s| && s[a] == r[i];
        assert s1[a] == r1[i] && s1[|s|] == r1[j];
      }
    }
  }

  /** What Filter keeps is exactly the elements of s that satisfy p. */
  lemma FilterMembers<T>(s: seq<T>, p: T -> bool)
    ensures forall x :: x in Filter(s, p) <==> x in s && p(x)
  {
    forall x | x in s && p(x) ensures x in Filter(s, p) {
      FilterKeeps(s, p, x);
    }
  }

  /** Filtering keeps what it keeps in its original order. */
  lemma {:induction false} FilterKeepsOrder<T>(s: seq<T>, p: T -> bool)
    ensures OrderKept(s, Filter(s, p))
  {
    if s != [] {
      var init, x := s[..|s| - 1], s[|s| - 1];
      assert s == init + [x];
      FilterKeepsOrder(init, p);
      var r := Filter(init, p);
      if p(x) {
        forall i | 0 <= i < |r| ensures r[i] in init {
          assert r[i] in r;
        }
        OrderKeptSnocBoth(init, x, r);
      } else {
        OrderKeptSnoc(init, x, r);
      }
    }
  }

  /** SQLite's LIMIT/OFFSET: a negative offset counts as zero and a
      negative limit means no limit. The page is the run of s that starts
      max(offset, 0) elements in (or at the end), as long as the limit
      allows and s still has. */
  function Page<T>(s: seq<T>, offset: int, limit: int): (r: seq<T>)
    ensures limit >= 0 ==> |r| <= limit
    ensures offset <= 0 && (limit < 0 || limit >= |s|) ==> r == s
    ensures var a := Min(Max(offset, 0), |s|);
      |r| == (if limit < 0 then |s| - a else Min(limit, |s| - a))
      && r == s[a..a + |r|]
  {
    var rest := if offset <= 0 then s else if offset >= |s| then [] else s[offset..];
    if limit < 0 || limit >= |rest| then rest else rest[..limit]
  }

  /** The window lies inside s, starts max(offset, 0) elements in and is
      the rest of s from there, cut to `limit` when the limit is not
      negative. */
  lemma PageWindow<T>(s: seq<T>, offset: int, limit: int)
    ensures forall x :: x in Page(s, offset, limit) ==> x in s
    ensures var start := Max(offset, 0);
      (start <= |s| ==> |Page(s, offset, limit)| == if limit < 0 then |s| - start else Min(limit, |s| - start))
      && (start <= |s| ==> Page(s, offset, limit) == s[start..start + |Page(s, offset, limit)|])
      && (start >= |s| ==> Page(s, offset, limit) == [])
  {
    var rest := if offset <= 0 then s else if offset >= |s| then [] else s[offset..];
    assert forall x :: x in rest ==> x in s;
  }

  /** The first n elements (all of them when there are fewer). */
  function Take<T>(s: seq<T>, n: nat): (r: seq<T>)
    ensures |r| == if n <= |s| then n else |s|
    ensures r == s[..|r|]
  {
    if n <= |s| then s[..n] else s
  }

  /** Python's s[:n]: a negative n drops the last |n| elements. */
  function PySliceTo<T>(s: seq<T>, n: int): (r: seq<T>)
    ensures n >= 0 ==> r == s[..if n <= |s| then n else |s|]
    ensures n < 0 ==> r == s[..if -n <= |s| then |s| + n else 0]
  {
    if n >= 0 then (if n <= |s| then s[..n] else s)
    else (if -n <= |s| then s[..|s| + n] else [])
  }

  function Min(a: int, b: int): int { if a <= b then a else b }
  function Max(a: int, b: int): int { if a >= b then a else b }

  // ---------------------------------------------------------------------
  // Characters and strings (ASCII only)

  function LowerChar(c: char): (r: char)
    ensures !('A' <= r <= 'Z')
  {
    if 'A' <= c <= 'Z' then (c as int + 32) as char else c
  }

  function Lower(s: string): (r: string)
    ensures |r| == |s|
    ensures forall i :: 0 <= i < |s| ==> r[i] == LowerChar(s[i])
  {
    seq(|s|, i requires 0 <= i < |s| => LowerChar(s[i]))
  }

  /** Python's str.isspace() restricted to ASCII (it includes the four
      separator controls 0x1C..0x1F). */
  predicate PySpace(c: char)
  {
    c == ' ' || c == '\t' || c == '\n' || c == '\r' || c == '\U{B}' || c == '\U{C}'
    || ('\U{1C}' <= c <= '\U{1F}')
  }

  /** The white space JavaScript's String.prototype.trim() removes, ASCII part. */
  predicate JsSpace(c: char)
  {
    c == ' ' || c == '\t' || c == '\n' || c == '\r' || c == '\U{B}' || c == '\U{C}'
  }

  /** `s.trim().length === 0`: nothing but white space. */
  predicate JsBlank(s: string)
  {
    forall i :: 0 <= i < |s| ==> JsSpace(s[i])
  }

  /** `t` occurs in `s` as a contiguous block (Python `in`, JavaScript
      `includes`, SQL `LIKE '%t%'` without wildcards). */
  predicate Contains(s: string, t: string)
  {
    exists i | 0 <= i <= |s| :: OccursAt(s, t, i)
  }

  predicate OccursAt(s: string, t: string, i: int)
  {
    0 <= i <= |s| - |t| && s[i..i + |t|] == t
  }

  /** What occurs in a suffix occurs in the whole string. */
  lemma ContainsInSuffix(s: string, off: nat, w: string)
    requires off <= |s| && Contains(s[off..], w)
    ensures Contains(s, w)
  {
    var j :| 0 <= j <= |s[off..]| && OccursAt(s[off..], w, j);
    assert s[j + off..j + off + |w|] == s[off..][j..j + |w|];
    assert OccursAt(s, w, j + off);
  }

  lemma ContainsEmpty(s: string)
    ensures Contains(s, "")
  {
    assert OccursAt(s, "", 0);
  }

  /** Decimal digits of a natural number, most significant first. */
  function DecimalString(n: nat): (r: string)
    ensures |r| >= 1
    ensures forall i :: 0 <= i < |r| ==> '0' <= r[i] <= '9'
    decreases n
  {
    if n < 10 then [('0' as int + n) as char]
    else DecimalString(n / 10) + [('0' as int + n % 10) as char]
  }

  /** Python's `str` of an integer. */
  function IntString(n: int): string
  {
    if n < 0 then "-" + DecimalString(-n) else DecimalString(n)
  }

  /** Value of a string of decimal digits. */
  function DigitsValue(s: string): nat
    requires forall i :: 0 <= i < |s| ==> '0' <= s[i] <= '9'
  {
    if s == [] then 0 else DigitsValue(s[..|s| - 1]) * 10 + (s[|s| - 1] as int - '0' as int)
  }

  lemma {:induction false} DecimalStringValue(n: nat)
    ensures DigitsValue(DecimalString(n)) == n
    decreases n
  {
    if n >= 10 {
      var r := DecimalString(n);
      assert r[..|r| - 1] == DecimalString(n / 10);
      DecimalStringValue(n / 10);
    }
  }
}
