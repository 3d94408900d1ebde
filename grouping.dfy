/** Rows collected into groups under a string key, the groups in the order
    their keys first appear: what a JavaScript object filled by
    `groups[key].push(row)` holds, read back in insertion order. */
module Grouping {
  import opened Common

  predicate Distinct(ks: seq<string>)
  {
    forall i, j :: 0 <= i < j < |ks| ==> ks[i] != ks[j]
  }

  /** Distinct keys stay distinct with at most one more key that is not
      among them. */
  lemma DistinctSnocAbsent(ks: seq<string>, more: seq<string>)
    requires Distinct(ks) && |more| <= 1
    requires forall k :: k in more ==> k !in ks
    ensures Distinct(ks + more)
  {
    var hs := ks + more;
    forall i, j | 0 <= i < j < |hs| ensures hs[i] != hs[j] {
      if j >= |ks| {
        assert hs[j] in more && hs[i] in ks;
      }
    }
  }

  function KeyIs<T>(key: T -> string, k: string): T -> bool
  {
    (x: T) => key(x) == k
  }

  /** The rows of one group, in input order. */
  function Members<T>(s: seq<T>, key: T -> string, k: string): (r: seq<T>)
    ensures forall x :: x in r ==> x in s && key(x) == k
  {
    Filter(s, KeyIs(key, k))
  }

  /** A row joins the group of its own key. */
  lemma MembersSnoc<T>(s: seq<T>, x: T, key: T -> string, k: string)
    ensures Members(s + [x], key, k) == Members(s, key, k) + (if key(x) == k then [x] else [])
  {
    assert (s + [x])[..|s|] == s;
  }

  /** The keys of s, each once, in the order they first appear. */
  function GroupKeys<T>(s: seq<T>, key: T -> string): (r: seq<string>)
    ensures Distinct(r)
  {
    if s == [] then []
    else
      var init := GroupKeys(s[..|s| - 1], key);
      if key(s[|s| - 1]) in init then init else init + [key(s[|s| - 1])]
  }

  lemma GroupKeysSnoc<T>(s: seq<T>, x: T, key: T -> string)
    ensures GroupKeys(s + [x], key) == if key(x) in GroupKeys(s, key) then GroupKeys(s, key)
                                       else GroupKeys(s, key) + [key(x)]
  {
    assert (s + [x])[..|s|] == s;
  }

  /** Every row's key is among the keys. */
  lemma {:induction false} GroupKeysCover<T>(s: seq<T>, key: T -> string, x: T)
    requires x in s
    ensures key(x) in GroupKeys(s, key)
  {
    var init := s[..|s| - 1];
    if x != s[|s| - 1] {
      assert x in init by { var i :| 0 <= i < |s| && s[i] == x; assert init[i] == x; }
      GroupKeysCover(init, key, x);
    }
  }

  /** Every key is the key of some row, so no group is empty. */
  lemma {:induction false} GroupKeysNonEmpty<T>(s: seq<T>, key: T -> string, k: string)
    requires k in GroupKeys(s, key)
    ensures Members(s, key, k) != []
  {
    var init, x := s[..|s| - 1], s[|s| - 1];
    assert init + [x] == s;
    MembersSnoc(init, x, key, k);
    if key(x) != k {
      GroupKeysNonEmpty(init, key, k);
    }
  }

  /** A key that no row has names an empty group. */
  lemma MembersOfAbsent<T>(s: seq<T>, key: T -> string, k: string)
    requires k !in GroupKeys(s, key)
    ensures Members(s, key, k) == []
  {
    if Members(s, key, k) != [] {
      var x := Members(s, key, k)[0];
      assert x in Members(s, key, k);
      GroupKeysCover(s, key, x);
    }
  }

  /** The keys are exactly those whose group is not empty. */
  lemma GroupKeysExactly<T>(s: seq<T>, key: T -> string, k: string)
    ensures k in GroupKeys(s, key) <==> Members(s, key, k) != []
  {
    if k in GroupKeys(s, key) {
      GroupKeysNonEmpty(s, key, k);
    } else {
      MembersOfAbsent(s, key, k);
    }
  }

  /** A map from key to rows, with the keys in the order they were first
      added (the insertion order of a JavaScript object), holds exactly
      the groups of s. */
  ghost predicate GroupedAs<T>(groups: map<string, seq<T>>, keys: seq<string>, s: seq<T>, key: T -> string)
  {
    keys == GroupKeys(s, key)
    && (forall k :: k in groups <==> k in keys)
    && (forall k :: k in groups ==> groups[k] == Members(s, key, k))
  }

  /** One step of `if (!groups[g]) groups[g] = []; groups[g].push(x)`. */
  lemma GroupStep<T>(groups: map<string, seq<T>>, keys: seq<string>, s: seq<T>, x: T, key: T -> string)
    requires GroupedAs(groups, keys, s, key)
    ensures var g := key(x);
      GroupedAs(groups[g := (if g in groups then groups[g] else []) + [x]],
                if g in groups then keys else keys + [g], s + [x], key)
  {
    var g := key(x);
    GroupKeysSnoc(s, x, key);
    if g !in groups {
      MembersOfAbsent(s, key, g);
    }
    var groups' := groups[g := (if g in groups then groups[g] else []) + [x]];
    forall k | k in groups' ensures groups'[k] == Members(s + [x], key, k) {
      MembersSnoc(s, x, key, k);
    }
  }

  /** The same step, for the loop over the prefixes of s. */
  lemma GroupPrefixStep<T>(groups: map<string, seq<T>>, keys: seq<string>, s: seq<T>, i: nat, key: T -> string)
    requires i < |s|
    requires GroupedAs(groups, keys, s[..i], key)
    ensures var g := key(s[i]);
      GroupedAs(groups[g := (if g in groups then groups[g] else []) + [s[i]]],
                if g in groups then keys else keys + [g], s[..i + 1], key)
  {
    assert s[..i + 1] == s[..i] + [s[i]];
    GroupStep(groups, keys, s[..i], s[i], key);
  }

  /** `if (!groups[g]) groups[g] = []; groups[g].push(x)`, the key list
      recording the order in which keys were created. */
  method Push<T>(groups: map<string, seq<T>>, keys: seq<string>, g: string, x: T)
    returns (groups': map<string, seq<T>>, keys': seq<string>)
    ensures groups' == groups[g := (if g in groups then groups[g] else []) + [x]]
    ensures keys' == if g in groups then keys else keys + [g]
  {
    groups', keys' := groups, keys;
    if g !in groups' {
      groups' := groups'[g := []];
      keys' := keys' + [g];
    }
    groups' := groups'[g := groups'[g] + [x]];
  }

  /** The groups named by ks laid end to end. */
  function Sections<T>(s: seq<T>, key: T -> string, ks: seq<string>): seq<T>
  {
    if ks == [] then [] else Sections(s, key, ks[..|ks| - 1]) + Members(s, key, ks[|ks| - 1])
  }

  lemma {:induction false} SectionsOfNone<T>(key: T -> string, ks: seq<string>)
    ensures Sections([], key, ks) == []
  {
    if ks != [] {
      SectionsOfNone(key, ks[..|ks| - 1]);
    }
  }

  /** One more row lands in exactly one section, when its key is named once. */
  lemma {:induction false} SectionsSnoc<T>(s: seq<T>, x: T, key: T -> string, ks: seq<string>)
    requires Distinct(ks)
    ensures multiset(Sections(s + [x], key, ks))
            == multiset(Sections(s, key, ks)) + (if key(x) in ks then multiset{x} else multiset{})
  {
    if ks != [] {
      var init, k := ks[..|ks| - 1], ks[|ks| - 1];
      assert ks == init + [k];
      assert Distinct(init);
      SectionsSnoc(s, x, key, init);
      MembersSnoc(s, x, key, k);
      if key(x) == k {
        assert key(x) !in init;
      } else {
        assert key(x) in ks <==> key(x) in init;
      }
    }
  }

  /** The same for the sums over the sections. */
  lemma {:induction false} SectionsSnocSum<T>(s: seq<T>, x: T, key: T -> string, ks: seq<string>, f: T -> int)
    requires Distinct(ks)
    ensures SumOf(Sections(s + [x], key, ks), f) == SumOf(Sections(s, key, ks), f) + (if key(x) in ks then f(x) else 0)
  {
    if ks != [] {
      var init, k := ks[..|ks| - 1], ks[|ks| - 1];
      assert ks == init + [k];
      assert Distinct(init);
      SectionsSnocSum(s, x, key, init, f);
      MembersSnoc(s, x, key, k);
      var m := Members(s, key, k);
      var add := if key(x) == k then [x] else [];
      SumOfAppend(Sections(s + [x], key, init), m + add, f);
      SumOfAppend(Sections(s, key, init), m, f);
      SumOfAppend(m, add, f);
      if key(x) == k {
        assert key(x) !in init;
        assert SumOf(add, f) == f(x) by { assert add[..0] == []; }
      } else {
        assert key(x) in ks <==> key(x) in init;
      }
    }
  }

  /** The sections named by a list of distinct keys covering every row hold
      each row exactly once and add up to the whole. */
  lemma {:induction false} SectionsPartition<T>(s: seq<T>, key: T -> string, ks: seq<string>, f: T -> int)
    requires Distinct(ks)
    requires forall x :: x in s ==> key(x) in ks
    ensures multiset(Sections(s, key, ks)) == multiset(s)
    ensures SumOf(Sections(s, key, ks), f) == SumOf(s, f)
  {
    if s == [] {
      SectionsOfNone(key, ks);
    } else {
      var init, x := s[..|s| - 1], s[|s| - 1];
      assert init + [x] == s;
      forall y | y in init ensures key(y) in ks { assert y in s; }
      SectionsPartition(init, key, ks, f);
      assert x in s;
      SectionsSnoc(init, x, key, ks);
      SectionsSnocSum(init, x, key, ks, f);
    }
  }

  /** In particular for the keys in their first-appearance order. */
  lemma GroupsPartition<T>(s: seq<T>, key: T -> string, f: T -> int)
    ensures multiset(Sections(s, key, GroupKeys(s, key))) == multiset(s)
    ensures SumOf(Sections(s, key, GroupKeys(s, key)), f) == SumOf(s, f)
  {
    forall x | x in s ensures key(x) in GroupKeys(s, key) {
      GroupKeysCover(s, key, x);
    }
    SectionsPartition(s, key, GroupKeys(s, key), f);
  }
}
