/** The stable sort the source relies on wherever it sorts a copy of a
    list: JavaScript's Array.prototype.sort with a comparator and Python's
    sorted(). Both are stable, so an element only moves in front of an
    earlier one when the comparator strictly prefers it. The model fixes
    the result as an insertion sort (`SortBy`) driven by `le(a, b)`, "a may
    stay in front of b", and sorts arrays in place against that function. */
module Sorting {
  import opened Common

  /** `le` orders every pair and is transitive. */
  ghost predicate TotalPreorder<T(!new)>(le: (T, T) -> bool)
  {
    (forall a, b :: le(a, b) || le(b, a)) &&
    (forall a, b, c :: le(a, b) && le(b, c) ==> le(a, c))
  }

  ghost predicate SortedBy<T>(s: seq<T>, le: (T, T) -> bool)
  {
    forall i, j :: 0 <= i < j < |s| ==> le(s[i], s[j])
  }

  /** Places x behind the last element that may stay in front of it. */
  function Insert<T>(s: seq<T>, x: T, le: (T, T) -> bool): (r: seq<T>)
    ensures |r| == |s| + 1
  {
    if s == [] then [x]
    else if le(s[|s| - 1], x) then s + [x]
    else Insert(s[..|s| - 1], x, le) + [s[|s| - 1]]
  }

  /** Stable sort of s: each element in turn is inserted into the sorted
      prefix before it. */
  function SortBy<T>(s: seq<T>, le: (T, T) -> bool): (r: seq<T>)
    ensures |r| == |s|
  {
    if s == [] then [] else Insert(SortBy(s[..|s| - 1], le), s[|s| - 1], le)
  }

  lemma {:induction false} InsertPermutes<T>(s: seq<T>, x: T, le: (T, T) -> bool)
    ensures multiset(Insert(s, x, le)) == multiset(s) + multiset{x}
  {
    if s != [] && !le(s[|s| - 1], x) {
      InsertPermutes(s[..|s| - 1], x, le);
      assert s == s[..|s| - 1] + [s[|s| - 1]];
    }
  }

  lemma {:induction false} InsertSorted<T(!new)>(s: seq<T>, x: T, le: (T, T) -> bool)
    requires TotalPreorder(le)
    requires SortedBy(s, le)
    ensures SortedBy(Insert(s, x, le), le)
  {
    if s == [] {
    } else if le(s[|s| - 1], x) {
      var r := s + [x];
      forall i, j | 0 <= i < j < |r|
        ensures le(r[i], r[j])
      {
        if j == |s| && i < |s| - 1 {
          assert le(s[i], s[|s| - 1]);
        }
      }
    } else {
      var p := s[..|s| - 1];
      var last := s[|s| - 1];
      InsertSorted(p, x, le);
      InsertPermutes(p, x, le);
      var q := Insert(p, x, le);
      var r := q + [last];
      forall i | 0 <= i < |q|
        ensures le(q[i], last)
      {
        assert q[i] in multiset(q);
        if q[i] != x {
          assert q[i] in multiset(p);
          var k :| 0 <= k < |p| && p[k] == q[i];
          assert le(s[k], s[|s| - 1]);
        }
      }
      forall i, j | 0 <= i < j < |r|
        ensures le(r[i], r[j])
      {
        if j < |q| {
          assert le(q[i], q[j]);
        }
      }
    }
  }

  /** The result holds exactly the input's elements. */
  lemma {:induction false} SortByPermutes<T>(s: seq<T>, le: (T, T) -> bool)
    ensures multiset(SortBy(s, le)) == multiset(s)
  {
    if s != [] {
      SortByPermutes(s[..|s| - 1], le);
      InsertPermutes(SortBy(s[..|s| - 1], le), s[|s| - 1], le);
      assert s == s[..|s| - 1] + [s[|s| - 1]];
    }
  }

  /** With a total preorder the result is ordered. */
  lemma {:induction false} SortBySorted<T(!new)>(s: seq<T>, le: (T, T) -> bool)
    requires TotalPreorder(le)
    ensures SortedBy(SortBy(s, le), le)
  {
    if s != [] {
      SortBySorted(s[..|s| - 1], le);
      InsertSorted(SortBy(s[..|s| - 1], le), s[|s| - 1], le);
    }
  }

  /** An input that is already ordered comes back unchanged (which is
      what makes the sort stable: ties keep their input order). */
  lemma {:induction false} SortByOfSorted<T>(s: seq<T>, le: (T, T) -> bool)
    requires SortedBy(s, le)
    ensures SortBy(s, le) == s
  {
    if s != [] {
      var p, last := s[..|s| - 1], s[|s| - 1];
      assert SortedBy(p, le);
      SortByOfSorted(p, le);
      assert SortBy(s, le) == Insert(p, last, le);
      if |p| > 0 {
        assert le(p[|p| - 1], last);
      }
      assert Insert(p, last, le) == p + [last];
      assert p + [last] == s;
    }
  }

  /** Insertion only consults the comparator against x. */
  lemma {:induction false} InsertAgrees<T>(s: seq<T>, x: T, le1: (T, T) -> bool, le2: (T, T) -> bool)
    requires forall a :: a in s ==> le1(a, x) == le2(a, x)
    ensures Insert(s, x, le1) == Insert(s, x, le2)
  {
    if s != [] {
      assert s[|s| - 1] in s;
      if !le1(s[|s| - 1], x) {
        forall a | a in s[..|s| - 1] ensures le1(a, x) == le2(a, x) { assert a in s; }
        InsertAgrees(s[..|s| - 1], x, le1, le2);
      }
    }
  }

  /** Two comparators that agree on the elements of s sort it alike. */
  lemma {:induction false} SortByAgrees<T>(s: seq<T>, le1: (T, T) -> bool, le2: (T, T) -> bool)
    requires forall a, b :: a in s && b in s ==> le1(a, b) == le2(a, b)
    ensures SortBy(s, le1) == SortBy(s, le2)
  {
    if s != [] {
      var init, x := s[..|s| - 1], s[|s| - 1];
      forall a, b | a in init && b in init ensures le1(a, b) == le2(a, b) { assert a in s && b in s; }
      SortByAgrees(init, le1, le2);
      SortByPermutes(init, le1);
      var t := SortBy(init, le1);
      forall a | a in t ensures le1(a, x) == le2(a, x) {
        assert a in multiset(init);
        assert a in s;
      }
      InsertAgrees(t, x, le1, le2);
    }
  }

  // ---------------------------------------------------------------------
  // Comparators by key

  /** `less` is irreflexive, transitive and orders every pair of distinct keys. */
  ghost predicate StrictTotalOrder<K(!new)>(less: (K, K) -> bool)
  {
    (forall a :: !less(a, a)) &&
    (forall a, b :: a == b || less(a, b) || less(b, a)) &&
    (forall a, b, c :: less(a, b) && less(b, c) ==> less(a, c))
  }

  /** Strict lexicographic order by code point, as Python compares
      strings and as JavaScript does for text without characters beyond
      U+FFFF (JavaScript compares UTF-16 code units). */
  predicate LexLess(a: string, b: string)
  {
    if a == [] then b != []
    else if b == [] then false
    else if a[0] != b[0] then a[0] < b[0]
    else LexLess(a[1..], b[1..])
  }

  lemma {:induction false} LexLessIrreflexive(a: string)
    ensures !LexLess(a, a)
  {
    if a != [] {
      LexLessIrreflexive(a[1..]);
    }
  }

  lemma {:induction false} LexLessTotal(a: string, b: string)
    ensures a == b || LexLess(a, b) || LexLess(b, a)
  {
    if a != [] && b != [] && a[0] == b[0] {
      LexLessTotal(a[1..], b[1..]);
      if a[1..] == b[1..] {
        assert a == [a[0]] + a[1..] && b == [b[0]] + b[1..];
      }
    }
  }

  lemma {:induction false} LexLessAsymmetric(a: string, b: string)
    ensures !(LexLess(a, b) && LexLess(b, a))
  {
    if a != [] && b != [] && a[0] == b[0] {
      LexLessAsymmetric(a[1..], b[1..]);
    }
  }

  lemma {:induction false} LexLessTransitive(a: string, b: string, c: string)
    requires LexLess(a, b) && LexLess(b, c)
    ensures LexLess(a, c)
  {
    if a != [] && b != [] && c != [] && a[0] == b[0] && b[0] == c[0] {
      LexLessTransitive(a[1..], b[1..], c[1..]);
    }
  }

  function IntLess(a: int, b: int): bool { a < b }

  /** Code-point comparison of strings, JavaScript's `<` on strings
      without characters beyond U+FFFF. */
  lemma LexLessIsStrictTotal()
    ensures StrictTotalOrder(LexLess)
  {
    forall a ensures !LexLess(a, a) { LexLessIrreflexive(a); }
    forall a, b ensures a == b || LexLess(a, b) || LexLess(b, a) { LexLessTotal(a, b); }
    forall a, b, c | LexLess(a, b) && LexLess(b, c) ensures LexLess(a, c) { LexLessTransitive(a, b, c); }
  }

  /** The JavaScript comparator `(a, b) => key(a) < key(b) ? (descending ? 1 : -1)
      : key(a) > key(b) ? (descending ? -1 : 1) : 0`, read as "a may stay in front
      of b" (the comparator is not positive). */
  function KeyLe<T, K>(key: T -> K, less: (K, K) -> bool, descending: bool): (T, T) -> bool
  {
    (a: T, b: T) => if less(key(a), key(b)) then !descending else if less(key(b), key(a)) then descending else true
  }

  /** Over a strict total order of the keys, the comparator is a total
      preorder: ascending keys, or descending ones when flagged. */
  lemma KeyLeIsPreorder<T(!new), K(!new)>(key: T -> K, less: (K, K) -> bool, descending: bool)
    requires StrictTotalOrder(less)
    ensures TotalPreorder(KeyLe(key, less, descending))
    ensures forall a, b :: KeyLe(key, less, descending)(a, b) <==>
      (if descending then !less(key(a), key(b)) else !less(key(b), key(a)))
  {
  }

  /** x goes right after the last element that may stay in front of it,
      when everything from there on must go behind it. */
  lemma {:induction false} InsertAt<T>(sp: seq<T>, x: T, j: nat, le: (T, T) -> bool)
    requires j <= |sp|
    requires j == 0 || le(sp[j - 1], x)
    requires forall k :: j <= k < |sp| ==> !le(sp[k], x)
    ensures Insert(sp, x, le) == sp[..j] + [x] + sp[j..]
    decreases |sp|
  {
    if |sp| == j {
      assert sp[..j] == sp && sp[j..] == [];
      assert Insert(sp, x, le) == sp + [x];
    } else {
      var init, last := sp[..|sp| - 1], sp[|sp| - 1];
      assert !le(last, x);
      assert Insert(sp, x, le) == Insert(init, x, le) + [last];
      InsertAt(init, x, j, le);
      assert init[..j] == sp[..j];
      assert init[j..] + [last] == sp[j..];
    }
  }

  /** The inner loop of `SortInPlace`: a[i] is moved down into the
      prefix a[..i], behind the last element that may stay in front of it. */
  method InsertInPlace<T>(a: array<T>, i: nat, le: (T, T) -> bool)
    requires i < a.Length
    modifies a
    ensures a[..i + 1] == Insert(old(a[..i]), old(a[i]), le)
    ensures a[i + 1..] == old(a[i + 1..])
  {
    ghost var sp := a[..i];
    ghost var orig := a[..];
    var x := a[i];
    var j := ShiftUp(a, i, x, le, sp);
    InsertAt(sp, x, j, le);
    a[j] := x;
    InsertPlaced(a[..], sp, x, j);
    assert a[..][..i + 1] == a[..i + 1];
    SuffixSame(a[..], orig, i + 1);
  }

  /** Shifts up by one place the elements in front of position i that must
      go behind x, leaving the gap for x at the returned j. */
  method ShiftUp<T>(a: array<T>, i: nat, x: T, le: (T, T) -> bool, ghost sp: seq<T>) returns (j: nat)
    requires i < a.Length && sp == a[..i]
    modifies a
    ensures j <= i
    ensures j == 0 || le(sp[j - 1], x)
    ensures forall k :: j <= k < i ==> !le(sp[k], x)
    ensures forall k :: 0 <= k < j ==> a[k] == sp[k]
    ensures forall k :: j < k <= i ==> a[k] == sp[k - 1]
    ensures forall k :: i < k < a.Length ==> a[k] == old(a[k])
  {
    j := i;
    while j > 0 && !le(a[j - 1], x)
      invariant 0 <= j <= i
      invariant forall k :: j <= k < i ==> !le(sp[k], x)
      invariant forall k :: 0 <= k < j ==> a[k] == sp[k]
      invariant forall k :: j < k <= i ==> a[k] == sp[k - 1]
      invariant forall k :: i < k < a.Length ==> a[k] == old(a[k])
    {
      a[j] := a[j - 1];
      j := j - 1;
    }
  }

  /** Two sequences that agree from index `n` on have the same suffix there. */
  lemma SuffixSame<T>(s: seq<T>, t: seq<T>, n: nat)
    requires n <= |s| == |t|
    requires forall k :: n <= k < |s| ==> s[k] == t[k]
    ensures s[n..] == t[n..]
  {
  }

  /** Where the shifted prefix and x end up once the inner loop is done. */
  lemma InsertPlaced<T>(s: seq<T>, sp: seq<T>, x: T, j: nat)
    requires j <= |sp| < |s|
    requires forall k :: 0 <= k < j ==> s[k] == sp[k]
    requires s[j] == x
    requires forall k :: j < k <= |sp| ==> s[k] == sp[k - 1]
    ensures s[..|sp| + 1] == sp[..j] + [x] + sp[j..]
  {
    var t := sp[..j] + [x] + sp[j..];
    forall k | 0 <= k <= |sp| ensures s[k] == t[k] {
      if k > j {
        assert t[k] == sp[k - 1];
      }
    }
  }

  /** Sorts the array in place; the result is exactly `SortBy` of the
      contents it started with. */
  method SortInPlace<T>(a: array<T>, le: (T, T) -> bool)
    modifies a
    ensures a[..] == SortBy(old(a[..]), le)
  {
    ghost var orig := a[..];
    var i := 0;
    while i < a.Length
      invariant 0 <= i <= a.Length
      invariant a[..i] == SortBy(orig[..i], le)
      invariant a[i..] == orig[i..]
    {
      assert a[i] == orig[i];
      InsertInPlace(a, i, le);
      assert orig[..i + 1][..i] == orig[..i];
      i := i + 1;
    }
    assert a[..] == a[..a.Length] && orig == orig[..a.Length];
  }

  /** Sorts a copy of s, leaving s alone, as `sorted(...)` and
      `[...list].sort(...)` do. */
  method SortedCopy<T>(s: seq<T>, le: (T, T) -> bool) returns (r: seq<T>)
    ensures r == SortBy(s, le)
  {
    if |s| == 0 {
      return [];
    }
    var a := new T[|s|](i requires 0 <= i < |s| => s[i]);
    assert a[..] == s;
    SortInPlace(a, le);
    r := a[..];
  }

  /** A page of a sorted sequence is sorted, lies inside it, and holds the
      rest of it after the offset, cut to the limit when there is one. */
  lemma SortedPage<T>(s: seq<T>, offset: int, limit: int, le: (T, T) -> bool)
    requires SortedBy(s, le) && offset >= 0
    ensures SortedBy(Page(s, offset, limit), le)
    ensures forall x :: x in Page(s, offset, limit) ==> x in s
    ensures limit >= 0 && offset <= |s| ==> |Page(s, offset, limit)| == Min(limit, |s| - offset)
    ensures limit < 0 && offset <= |s| ==> |Page(s, offset, limit)| == |s| - offset
    ensures offset <= |s| ==> Page(s, offset, limit) == s[offset..offset + |Page(s, offset, limit)|]
    ensures offset > |s| ==> Page(s, offset, limit) == []
  {
    var rest := if offset >= |s| then [] else s[offset..];
    assert forall i, j :: 0 <= i < j < |rest| ==> rest[i] == s[offset + i] && rest[j] == s[offset + j];
  }
}
