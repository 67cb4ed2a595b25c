/** The array operations the components chain together, as pure functions
    on sequences: `filter` (order-preserving selection) and a comparator
    `sort`. ECMA-262 (10th edition, section 22.1.3.27) requires
    `Array.prototype.sort` to be stable, so with a comparator of the form
    `key(a) - key(b)` its result is the stable ascending sort by `key`;
    descending comparators `key(b) - key(a)` are the ascending sort by the
    negated key. */
module Collections {

  // ----- filter -----

  /** `s.filter(p)`: the elements satisfying `p`, in their order in `s`. */
  function Filter<T>(s: seq<T>, p: T -> bool): (r: seq<T>)
    ensures |r| <= |s|
  {
    if s == [] then []
    else
      var rest := Filter(s[1..], p);
      if p(s[0]) then [s[0]] + rest else rest
  }

  /** Filtering keeps each element at most as often as it occurs. */
  lemma {:induction false} FilterSubMultiset<T>(s: seq<T>, p: T -> bool)
    ensures multiset(Filter(s, p)) <= multiset(s)
  {
    if s != [] {
      FilterSubMultiset(s[1..], p);
      assert s == [s[0]] + s[1..];
    }
  }

  /** Filtering keeps every occurrence of an element satisfying `p` and no
      occurrence of any other: the result's multiset is that of `s`
      restricted to `p`. */
  lemma {:induction false} FilterMultiplicity<T>(s: seq<T>, p: T -> bool)
    ensures forall x :: multiset(Filter(s, p))[x] == if p(x) then multiset(s)[x] else 0
  {
    if s != [] {
      FilterMultiplicity(s[1..], p);
      assert s == [s[0]] + s[1..];
      assert multiset(s) == multiset{s[0]} + multiset(s[1..]);
    }
  }

  /** An element is kept iff it occurs in `s` and satisfies `p`. */
  lemma {:induction false} FilterMembers<T>(s: seq<T>, p: T -> bool)
    ensures forall x :: x in Filter(s, p) <==> x in s && p(x)
  {
    if s != [] {
      FilterMembers(s[1..], p);
      assert s == [s[0]] + s[1..];
    }
  }

  /** Filtering distributes over concatenation. */
  lemma {:induction false} FilterConcat<T>(a: seq<T>, b: seq<T>, p: T -> bool)
    ensures Filter(a + b, p) == Filter(a, p) + Filter(b, p)
  {
    if a == [] {
      assert a + b == b;
    } else {
      assert (a + b)[1..] == a[1..] + b;
      FilterConcat(a[1..], b, p);
    }
  }

  /** Filtering a sequence extended by one element. */
  lemma FilterAppend<T>(a: seq<T>, x: T, p: T -> bool)
    ensures Filter(a + [x], p) == if p(x) then Filter(a, p) + [x] else Filter(a, p)
  {
    FilterConcat(a, [x], p);
    assert Filter([x], p) == if p(x) then [x] else [];
  }

  /** Nothing is kept when no element satisfies `p`. */
  lemma {:induction false} FilterNone<T>(s: seq<T>, p: T -> bool)
    requires forall i :: 0 <= i < |s| ==> !p(s[i])
    ensures Filter(s, p) == []
  {
    if s != [] {
      FilterNone(s[1..], p);
    }
  }

  /** Filtering with two predicates that are never both true gives results
      whose lengths add up to the length under their disjunction. */
  lemma {:induction false} FilterDisjointCounts<T>(s: seq<T>, p: T -> bool, q: T -> bool, either: T -> bool)
    requires forall x :: either(x) <==> p(x) || q(x)
    requires forall x :: !(p(x) && q(x))
    ensures |Filter(s, p)| + |Filter(s, q)| == |Filter(s, either)|
  {
    if s != [] {
      FilterDisjointCounts(s[1..], p, q, either);
    }
  }

  // ----- stable sort -----

  /** The key of every element is at most the key of every later one. */
  ghost predicate Sorted<T>(s: seq<T>, key: T -> real) {
    forall i, j :: 0 <= i < j < |s| ==> key(s[i]) <= key(s[j])
  }

  /** Places `x` after the last element of `p` whose key is not greater
      than its own (one step of a stable insertion sort). */
  function Insert<T>(p: seq<T>, x: T, key: T -> real): (r: seq<T>)
    decreases |p|
  {
    if p == [] || key(p[|p| - 1]) <= key(x) then p + [x]
    else Insert(p[..|p| - 1], x, key) + [p[|p| - 1]]
  }

  /** Inserting adds exactly `x`. */
  lemma {:induction false} InsertAdds<T>(p: seq<T>, x: T, key: T -> real)
    ensures multiset(Insert(p, x, key)) == multiset(p) + multiset{x}
    decreases |p|
  {
    if p != [] && key(x) < key(p[|p| - 1]) {
      var front, last := p[..|p| - 1], p[|p| - 1];
      assert p == front + [last];
      InsertAdds(front, x, key);
    }
  }

  /** Inserting adds exactly `x`, and keeps a sorted sequence sorted. */
  lemma {:induction false} InsertSorts<T>(p: seq<T>, x: T, key: T -> real)
    ensures multiset(Insert(p, x, key)) == multiset(p) + multiset{x}
    ensures Sorted(p, key) ==> Sorted(Insert(p, x, key), key)
    decreases |p|
  {
    InsertAdds(p, x, key);
    if p != [] && key(x) < key(p[|p| - 1]) && Sorted(p, key) {
      var front, last := p[..|p| - 1], p[|p| - 1];
      assert p == front + [last];
      InsertSorts(front, x, key);
      var r' := Insert(front, x, key);
      assert Insert(p, x, key) == r' + [last];
      forall i | 0 <= i < |r'| ensures key(r'[i]) <= key(last) {
        var y := r'[i];
        assert y in multiset(r');
        if y != x {
          assert y in multiset(front);
          var j :| 0 <= j < |front| && front[j] == y;
          assert p[j] == y;
        }
      }
      assert Sorted(r' + [last], key);
    }
  }

  /** The stable ascending sort of `s` by `key`. */
  function StableSort<T>(s: seq<T>, key: T -> real): (r: seq<T>)
    ensures multiset(r) == multiset(s)
    ensures |r| == |s|
    ensures Sorted(r, key)
    decreases |s|
  {
    if s == [] then []
    else
      var front, last := s[..|s| - 1], s[|s| - 1];
      assert s == front + [last];
      var sorted := StableSort(front, key);
      InsertSorts(sorted, last, key);
      assert |multiset(Insert(sorted, last, key))| == |s|;
      Insert(sorted, last, key)
  }

  /** The elements of `s` whose key is `v`, in their order in `s`. */
  function KeyClass<T>(s: seq<T>, key: T -> real, v: real): (r: seq<T>)
    decreases |s|
  {
    if s == [] then []
    else
      var front, last := s[..|s| - 1], s[|s| - 1];
      if key(last) == v then KeyClass(front, key, v) + [last] else KeyClass(front, key, v)
  }

  lemma {:induction false} KeyClassMember<T>(s: seq<T>, key: T -> real, v: real, x: T)
    ensures x in KeyClass(s, key, v) <==> x in s && key(x) == v
    decreases |s|
  {
    if s != [] {
      var front := s[..|s| - 1];
      assert s == front + [s[|s| - 1]];
      KeyClassMember(front, key, v, x);
    }
  }

  lemma {:induction false} InsertKeepsClasses<T>(p: seq<T>, x: T, key: T -> real, v: real)
    ensures KeyClass(Insert(p, x, key), key, v) ==
      if key(x) == v then KeyClass(p, key, v) + [x] else KeyClass(p, key, v)
    decreases |p|
  {
    if p != [] && key(x) < key(p[|p| - 1]) {
      var front, last := p[..|p| - 1], p[|p| - 1];
      InsertKeepsClasses(front, x, key, v);
      var r' := Insert(front, x, key);
      assert Insert(p, x, key) == r' + [last];
      assert (r' + [last])[..|r'|] == r';
    } else {
      assert (p + [x])[..|p|] == p;
    }
  }

  /** Stability: the elements sharing any one key keep their relative order. */
  lemma {:induction false} StableSortKeepsClasses<T>(s: seq<T>, key: T -> real, v: real)
    ensures KeyClass(StableSort(s, key), key, v) == KeyClass(s, key, v)
    decreases |s|
  {
    if s != [] {
      var front, last := s[..|s| - 1], s[|s| - 1];
      StableSortKeepsClasses(front, key, v);
      InsertKeepsClasses(StableSort(front, key), last, key, v);
    }
  }

  /** Sorting an already sorted sequence changes nothing. */
  lemma {:induction false} StableSortOfSorted<T>(s: seq<T>, key: T -> real)
    requires Sorted(s, key)
    ensures StableSort(s, key) == s
    decreases |s|
  {
    if s != [] {
      var front := s[..|s| - 1];
      assert s == front + [s[|s| - 1]];
      StableSortOfSorted(front, key);
    }
  }

  /** Sorting twice is sorting once. */
  lemma StableSortIdempotent<T>(s: seq<T>, key: T -> real)
    ensures StableSort(StableSort(s, key), key) == StableSort(s, key)
  {
    StableSortOfSorted(StableSort(s, key), key);
  }

  /** Two sorted sequences with the same elements of every key, in the same
      order, are equal. */
  lemma {:induction false} SortedClassesDetermine<T>(r: seq<T>, t: seq<T>, key: T -> real)
    requires Sorted(r, key) && Sorted(t, key)
    requires forall v :: KeyClass(r, key, v) == KeyClass(t, key, v)
    ensures r == t
    decreases |r| + |t|
  {
    if r == [] || t == [] {
      if r != [] {
        assert KeyClass(t, key, key(r[0])) == [];
        KeyClassMember(r, key, key(r[0]), r[0]);
      }
      if t != [] {
        assert KeyClass(r, key, key(t[0])) == [];
        KeyClassMember(t, key, key(t[0]), t[0]);
      }
    } else {
      var r', x := r[..|r| - 1], r[|r| - 1];
      var t', y := t[..|t| - 1], t[|t| - 1];
      assert key(x) == key(y) by {
        LastHasMaxKey(r, t, key);
        LastHasMaxKey(t, r, key);
      }
      assert x == y by {
        var fr, ft := KeyClass(r', key, key(x)), KeyClass(t', key, key(x));
        assert KeyClass(r, key, key(x)) == fr + [x];
        assert KeyClass(t, key, key(x)) == ft + [y];
        assert (fr + [x])[|fr + [x]| - 1] == x;
        assert (ft + [y])[|ft + [y]| - 1] == y;
      }
      forall v ensures KeyClass(r', key, v) == KeyClass(t', key, v) {
        var fr, ft := KeyClass(r', key, v), KeyClass(t', key, v);
        if key(x) == v {
          assert KeyClass(r, key, v) == fr + [x];
          assert KeyClass(t, key, v) == ft + [y];
          assert fr == (fr + [x])[..|fr|];
          assert ft == (ft + [y])[..|ft|];
        } else {
          assert KeyClass(r, key, v) == fr;
          assert KeyClass(t, key, v) == ft;
        }
      }
      SortedClassesDetermine(r', t', key);
    }
  }

  /** In a sorted `r` whose key classes agree with those of a non-empty `t`,
      the last element of `t` has a key no greater than the last of `r`. */
  lemma LastHasMaxKey<T>(r: seq<T>, t: seq<T>, key: T -> real)
    requires r != [] && t != []
    requires Sorted(r, key)
    requires forall v :: KeyClass(r, key, v) == KeyClass(t, key, v)
    ensures key(t[|t| - 1]) <= key(r[|r| - 1])
  {
    var y := t[|t| - 1];
    var v := key(y);
    KeyClassMember(t, key, v, y);
    KeyClassMember(r, key, v, y);
    var i :| 0 <= i < |r| && r[i] == y;
  }

  /** StableSort is the only sorted arrangement that keeps the order within
      every key: any result a stable sort may return is this one. */
  lemma StableSortUnique<T>(s: seq<T>, r: seq<T>, key: T -> real)
    requires Sorted(r, key)
    requires forall v :: KeyClass(r, key, v) == KeyClass(s, key, v)
    ensures r == StableSort(s, key)
  {
    forall v ensures KeyClass(r, key, v) == KeyClass(StableSort(s, key), key, v) {
      StableSortKeepsClasses(s, key, v);
    }
    SortedClassesDetermine(r, StableSort(s, key), key);
  }
}
