/** Small sequence helpers shared by the model: an Option type, a
    filter that keeps order (JavaScript's `Array.prototype.filter`) and a
    left-to-right sum (`reduce((acc, x) => acc + f(x), 0)`). */
module Collections {

  datatype Option<T> = None | Some(value: T)

  /** The elements of `s` satisfying `p`, in their original order. */
  function Filter<T>(s: seq<T>, p: T -> bool): (r: seq<T>)
    ensures |r| <= |s|
  {
    if s == [] then [] else (if p(s[0]) then [s[0]] else []) + Filter(s[1..], p)
  }

  /** An element is kept exactly when it is in `s` and satisfies `p`. */
  lemma {:induction false} FilterMembers<T>(s: seq<T>, p: T -> bool)
    ensures forall i :: 0 <= i < |Filter(s, p)| ==> Filter(s, p)[i] in s && p(Filter(s, p)[i])
    ensures forall i :: 0 <= i < |s| && p(s[i]) ==> s[i] in Filter(s, p)
  {
    if s != [] {
      FilterMembers(s[1..], p);
      var head := if p(s[0]) then [s[0]] else [];
      assert Filter(s, p) == head + Filter(s[1..], p);
      forall i | 0 <= i < |s| && p(s[i]) ensures s[i] in Filter(s, p) {
        if i > 0 { assert s[i] == s[1..][i - 1]; }
      }
    }
  }

  lemma {:induction false} FilterAppend<T>(a: seq<T>, b: seq<T>, p: T -> bool)
    ensures Filter(a + b, p) == Filter(a, p) + Filter(b, p)
  {
    if a == [] {
      assert a + b == b;
    } else {
      var head := if p(a[0]) then [a[0]] else [];
      assert (a + b)[0] == a[0];
      assert (a + b)[1..] == a[1..] + b;
      FilterAppend(a[1..], b, p);
      calc {
        Filter(a + b, p);
        head + Filter(a[1..] + b, p);
        head + (Filter(a[1..], p) + Filter(b, p));
        { assert head + (Filter(a[1..], p) + Filter(b, p)) == (head + Filter(a[1..], p)) + Filter(b, p); }
        (head + Filter(a[1..], p)) + Filter(b, p);
        Filter(a, p) + Filter(b, p);
      }
    }
  }

  lemma {:induction false} FilterKeepsAll<T>(s: seq<T>, p: T -> bool)
    requires forall i :: 0 <= i < |s| ==> p(s[i])
    ensures Filter(s, p) == s
  {
    if s != [] {
      FilterKeepsAll(s[1..], p);
    }
  }

  lemma {:induction false} FilterDropsAll<T>(s: seq<T>, p: T -> bool)
    requires forall i :: 0 <= i < |s| ==> !p(s[i])
    ensures Filter(s, p) == []
  {
    if s != [] {
      FilterDropsAll(s[1..], p);
    }
  }

  /** Filtering out one element that fails the test, between parts that pass it. */
  lemma FilterDropsOne<T>(before: seq<T>, x: T, after: seq<T>, p: T -> bool)
    requires forall i :: 0 <= i < |before| ==> p(before[i])
    requires forall i :: 0 <= i < |after| ==> p(after[i])
    requires !p(x)
    ensures Filter(before + [x] + after, p) == before + after
  {
    var tail := [x] + after;
    assert Filter(tail, p) == after by {
      assert tail[0] == x && tail[1..] == after;
      FilterKeepsAll(after, p);
    }
    FilterAppend(before, tail, p);
    FilterKeepsAll(before, p);
    assert before + [x] + after == before + tail;
  }

  /** No two elements share a key. */
  predicate KeysDistinct<T, K(==)>(s: seq<T>, key: T -> K)
  {
    forall i, j :: 0 <= i < j < |s| ==> key(s[i]) != key(s[j])
  }

  lemma {:induction false} FilterKeepsKeysDistinct<T, K>(s: seq<T>, p: T -> bool, key: T -> K)
    requires KeysDistinct(s, key)
    ensures KeysDistinct(Filter(s, p), key)
  {
    if s != [] {
      var rest := s[1..];
      assert KeysDistinct(rest, key) by {
        forall i, j | 0 <= i < j < |rest| ensures key(rest[i]) != key(rest[j]) {
          assert rest[i] == s[i + 1] && rest[j] == s[j + 1];
        }
      }
      FilterKeepsKeysDistinct(rest, p, key);
      var fr := Filter(rest, p);
      if p(s[0]) {
        FilterMembers(rest, p);
        var r := Filter(s, p);
        assert r == [s[0]] + fr;
        forall i, j | 0 <= i < j < |r| ensures key(r[i]) != key(r[j]) {
          if i == 0 {
            assert r[j] == fr[j - 1] && fr[j - 1] in rest;
            var k :| 0 <= k < |rest| && rest[k] == fr[j - 1];
            assert s[k + 1] == rest[k];
          } else {
            assert r[i] == fr[i - 1] && r[j] == fr[j - 1];
          }
        }
      }
    }
  }

  /** f(s[0]) + f(s[1]) + ... + f(s[|s|-1]), starting from 0. */
  function Sum<T>(s: seq<T>, f: T -> real): real
  {
    if s == [] then 0.0 else f(s[0]) + Sum(s[1..], f)
  }

  lemma {:induction false} SumNonNegative<T>(s: seq<T>, f: T -> real)
    requires forall i :: 0 <= i < |s| ==> f(s[i]) >= 0.0
    ensures Sum(s, f) >= 0.0
  {
    if s != [] {
      SumNonNegative(s[1..], f);
    }
  }

  lemma {:induction false} SumAppend<T>(a: seq<T>, b: seq<T>, f: T -> real)
    ensures Sum(a + b, f) == Sum(a, f) + Sum(b, f)
  {
    if a == [] {
      assert a + b == b;
    } else {
      assert (a + b)[0] == a[0];
      assert (a + b)[1..] == a[1..] + b;
      SumAppend(a[1..], b, f);
    }
  }

  /** Extending a prefix by one element adds that element's term. */
  lemma SumPrefix<T>(s: seq<T>, i: nat, f: T -> real)
    requires i < |s|
    ensures Sum(s[..i + 1], f) == Sum(s[..i], f) + f(s[i])
  {
    assert s[..i + 1] == s[..i] + [s[i]];
    SumAppend(s[..i], [s[i]], f);
  }

  lemma {:induction false} SumOfZeros<T>(s: seq<T>, f: T -> real)
    requires forall i :: 0 <= i < |s| ==> f(s[i]) == 0.0
    ensures Sum(s, f) == 0.0
  {
    if s != [] {
      SumOfZeros(s[1..], f);
    }
  }

  /** Summing a pointwise sum is adding the two sums. */
  lemma {:induction false} SumPointwise<T>(s: seq<T>, f: T -> real, g: T -> real, h: T -> real)
    requires forall i :: 0 <= i < |s| ==> f(s[i]) == g(s[i]) + h(s[i])
    ensures Sum(s, f) == Sum(s, g) + Sum(s, h)
  {
    if s != [] {
      SumPointwise(s[1..], f, g, h);
    }
  }

  // -----------------------------------------------------------------------
  // A stable insertion sort by an integer key (the order JavaScript's
  // `Array.prototype.sort` gives for the comparator `key(a) - key(b)`).

  predicate SortedBy<T>(s: seq<T>, key: T -> int)
  {
    forall i, j :: 0 <= i < j < |s| ==> key(s[i]) <= key(s[j])
  }

  lemma ConsSorted<T>(a: T, t: seq<T>, key: T -> int)
    requires SortedBy(t, key)
    requires |t| > 0 ==> key(a) <= key(t[0])
    ensures SortedBy([a] + t, key)
  {
    var s := [a] + t;
    forall i, j | 0 <= i < j < |s| ensures key(s[i]) <= key(s[j]) {
      if i == 0 {
        assert s[j] == t[j - 1];
        if j > 1 { assert key(t[0]) <= key(t[j - 1]); }
      } else {
        assert s[i] == t[i - 1] && s[j] == t[j - 1];
      }
    }
  }

  /** Puts `x` in front of the first element whose key is not below its own. */
  function InsertBy<T>(x: T, s: seq<T>, key: T -> int): (r: seq<T>)
    requires SortedBy(s, key)
    ensures SortedBy(r, key)
    ensures multiset(r) == multiset(s) + multiset{x}
    ensures |r| == |s| + 1 && (r[0] == x || (|s| > 0 && r[0] == s[0]))
  {
    if s == [] then [x]
    else if key(x) <= key(s[0]) then
      ConsSorted(x, s, key);
      [x] + s
    else
      var t := InsertBy(x, s[1..], key);
      assert |s[1..]| > 0 ==> key(s[0]) <= key(s[1..][0]);
      ConsSorted(s[0], t, key);
      assert s == [s[0]] + s[1..];
      [s[0]] + t
  }

  /** Insertion sort; an element is inserted before every later one of equal key. */
  function SortBy<T>(s: seq<T>, key: T -> int): (r: seq<T>)
    ensures SortedBy(r, key)
    ensures multiset(r) == multiset(s)
    ensures |r| == |s|
  {
    if s == [] then []
    else
      assert s == [s[0]] + s[1..];
      InsertBy(s[0], SortBy(s[1..], key), key)
  }

  function KeyIs<T>(key: T -> int, k: int): T -> bool
  {
    x => key(x) == k
  }

  /** Two elements of which at most one passes the test may trade places before a filter. */
  lemma SwapUnlessBothKept<T>(x: T, y: T, rest: seq<T>, p: T -> bool)
    requires !(p(x) && p(y))
    ensures Filter([y], p) + (Filter([x], p) + rest) == Filter([x], p) + (Filter([y], p) + rest)
  {
    assert [x][1..] == [] && [y][1..] == [];
    if p(x) {
      assert Filter([y], p) == [];
    } else {
      assert Filter([x], p) == [];
    }
  }

  lemma {:induction false} InsertByKeepsKeyOrder<T>(x: T, s: seq<T>, key: T -> int, k: int)
    requires SortedBy(s, key)
    ensures Filter(InsertBy(x, s, key), KeyIs(key, k)) == Filter([x], KeyIs(key, k)) + Filter(s, KeyIs(key, k))
  {
    var p := KeyIs(key, k);
    if s == [] {
    } else if key(x) <= key(s[0]) {
      FilterAppend([x], s, p);
    } else {
      var t := InsertBy(x, s[1..], key);
      assert InsertBy(x, s, key) == [s[0]] + t;
      InsertByKeepsKeyOrder(x, s[1..], key, k);
      FilterAppend([s[0]], t, p);
      FilterAppend([s[0]], s[1..], p);
      assert [s[0]] + s[1..] == s;
      // x and s[0] have different keys, so at most one of them is kept.
      SwapUnlessBothKept(x, s[0], Filter(s[1..], p), p);
    }
  }

  /** Stability: the elements sharing any one key keep their relative order. */
  lemma {:induction false} SortByIsStable<T>(s: seq<T>, key: T -> int, k: int)
    ensures Filter(SortBy(s, key), KeyIs(key, k)) == Filter(s, KeyIs(key, k))
  {
    if s != [] {
      SortByIsStable(s[1..], key, k);
      InsertByKeepsKeyOrder(s[0], SortBy(s[1..], key), key, k);
      FilterAppend([s[0]], s[1..], KeyIs(key, k));
      assert [s[0]] + s[1..] == s;
    }
  }
}
