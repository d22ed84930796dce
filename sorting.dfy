/** `xs.sort((a, b) => key(b) - key(a))`: ECMAScript's `Array.prototype.sort`
    is stable, so sorting by a descending key keeps elements with equal keys
    in their original order. Modelled as a stable insertion sort. */
module Sorting {
  import opened Seqs

  /** Keys never increase from left to right. */
  ghost predicate NonIncreasing<T>(s: seq<T>, key: T -> int)
  {
    forall i, j :: 0 <= i < j < |s| ==> key(s[i]) >= key(s[j])
  }

  /** Puts `x` in front of the first element whose key is not larger. */
  function InsertDesc<T>(x: T, s: seq<T>, key: T -> int): (r: seq<T>)
    ensures |r| == |s| + 1
  {
    if s == [] then [x]
    else if key(s[0]) > key(x) then [s[0]] + InsertDesc(x, s[1..], key)
    else [x] + s
  }

  /** Inserting adds exactly `x`. */
  lemma {:induction false} InsertPerm<T>(x: T, s: seq<T>, key: T -> int)
    ensures multiset(InsertDesc(x, s, key)) == multiset(s) + multiset{x}
  {
    if s != [] && key(s[0]) > key(x) {
      InsertPerm(x, s[1..], key);
      assert s == [s[0]] + s[1..];
      assert InsertDesc(x, s, key) == [s[0]] + InsertDesc(x, s[1..], key);
    }
  }

  lemma {:induction false} InsertMembers<T>(x: T, s: seq<T>, key: T -> int, y: T)
    requires y in InsertDesc(x, s, key)
    ensures y == x || y in s
  {
    if s != [] && key(s[0]) > key(x) {
      var rest := InsertDesc(x, s[1..], key);
      assert InsertDesc(x, s, key) == [s[0]] + rest;
      if y != s[0] {
        assert y in rest;
        InsertMembers(x, s[1..], key, y);
      }
    }
  }

  lemma {:induction false} InsertSorted<T>(x: T, s: seq<T>, key: T -> int)
    requires NonIncreasing(s, key)
    ensures NonIncreasing(InsertDesc(x, s, key), key)
  {
    if s != [] && key(s[0]) > key(x) {
      var rest := InsertDesc(x, s[1..], key);
      assert NonIncreasing(s[1..], key) by {
        forall i, j | 0 <= i < j < |s| - 1 ensures key(s[1..][i]) >= key(s[1..][j]) {
          assert s[1..][i] == s[i + 1] && s[1..][j] == s[j + 1];
        }
      }
      InsertSorted(x, s[1..], key);
      forall y | y in rest ensures key(s[0]) >= key(y) {
        InsertMembers(x, s[1..], key, y);
        if y != x {
          var j :| 0 <= j < |s[1..]| && s[1..][j] == y;
          assert s[j + 1] == y;
        }
      }
      var r := [s[0]] + rest;
      assert InsertDesc(x, s, key) == r;
      forall i, j | 0 <= i < j < |r| ensures key(r[i]) >= key(r[j]) {
        if i > 0 { assert r[i] == rest[i - 1] && r[j] == rest[j - 1]; }
        else { assert r[j] in rest; }
      }
    }
  }

  /** The stable descending sort of `xs` by `key`: a permutation of `xs`
      with non-increasing keys. */
  function SortDesc<T>(xs: seq<T>, key: T -> int): (r: seq<T>)
    ensures |r| == |xs|
    ensures multiset(r) == multiset(xs)
    ensures NonIncreasing(r, key)
  {
    if xs == [] then []
    else
      assert xs == [xs[0]] + xs[1..];
      assert multiset(xs) == multiset(xs[1..]) + multiset{xs[0]};
      var rest := SortDesc(xs[1..], key);
      InsertSorted(xs[0], rest, key);
      InsertPerm(xs[0], rest, key);
      InsertDesc(xs[0], rest, key)
  }

  /** The elements whose key is `k`. */
  function HasKey<T>(key: T -> int, k: int): T -> bool
  {
    x => key(x) == k
  }

  /** Inserting `x` puts it before every element with its key. */
  lemma {:induction false} InsertStable<T(!new)>(x: T, s: seq<T>, key: T -> int, k: int)
    ensures Filter(HasKey(key, k), InsertDesc(x, s, key))
         == (if key(x) == k then [x] else []) + Filter(HasKey(key, k), s)
  {
    if s != [] && key(s[0]) > key(x) {
      InsertStable(x, s[1..], key, k);
      InsertPastHead(x, s, key, k);
    } else {
      InsertAtHead(x, s, key, k);
    }
  }

  lemma InsertAtHead<T(!new)>(x: T, s: seq<T>, key: T -> int, k: int)
    requires s == [] || key(s[0]) <= key(x)
    ensures Filter(HasKey(key, k), InsertDesc(x, s, key))
         == (if key(x) == k then [x] else []) + Filter(HasKey(key, k), s)
  {
    var p := HasKey(key, k);
    assert InsertDesc(x, s, key) == [x] + s;
    FilterCons(p, x, s);
    if !p(x) {
      assert ([] + Filter(p, s)) == Filter(p, s);
    }
  }

  lemma InsertPastHead<T(!new)>(x: T, s: seq<T>, key: T -> int, k: int)
    requires s != [] && key(s[0]) > key(x)
    requires Filter(HasKey(key, k), InsertDesc(x, s[1..], key))
          == (if key(x) == k then [x] else []) + Filter(HasKey(key, k), s[1..])
    ensures Filter(HasKey(key, k), InsertDesc(x, s, key))
         == (if key(x) == k then [x] else []) + Filter(HasKey(key, k), s)
  {
    var rest := InsertDesc(x, s[1..], key);
    assert InsertDesc(x, s, key) == [s[0]] + rest;
    assert s == [s[0]] + s[1..];
    ConsFilter(HasKey(key, k), s[0], rest, s[1..], if key(x) == k then [x] else []);
  }

  /** Putting an element that `head` cannot contain in front of both sides
      of `Filter(p, rest) == head + Filter(p, tail)` keeps it true. */
  lemma ConsFilter<T(!new)>(p: T -> bool, y: T, rest: seq<T>, tail: seq<T>, head: seq<T>)
    requires Filter(p, rest) == head + Filter(p, tail)
    requires p(y) ==> head == []
    ensures Filter(p, [y] + rest) == head + Filter(p, [y] + tail)
  {
    FilterCons(p, y, rest);
    FilterCons(p, y, tail);
    if p(y) {
      assert head + Filter(p, [y] + tail) == Filter(p, [y] + tail);
      assert Filter(p, rest) == Filter(p, tail);
    } else {
      assert head + Filter(p, [y] + tail) == head + Filter(p, tail);
    }
  }

  /** Stability: for every key value, the elements with that key appear in
      the sorted result in the order they had in the input. */
  lemma {:induction false} SortStable<T(!new)>(xs: seq<T>, key: T -> int, k: int)
    ensures Filter(HasKey(key, k), SortDesc(xs, key)) == Filter(HasKey(key, k), xs)
  {
    if xs != [] {
      SortStable(xs[1..], key, k);
      InsertStable(xs[0], SortDesc(xs[1..], key), key, k);
      assert [xs[0]] + xs[1..] == xs;
      FilterCons(HasKey(key, k), xs[0], xs[1..]);
      if !HasKey(key, k)(xs[0]) {
        assert [] + Filter(HasKey(key, k), xs[1..]) == Filter(HasKey(key, k), xs[1..]);
      }
    }
  }

  /** When every key is the same, sorting changes nothing. */
  lemma SortEqualKeys<T(!new)>(xs: seq<T>, key: T -> int, k: int)
    requires forall x :: x in xs ==> key(x) == k
    ensures SortDesc(xs, key) == xs
  {
    var r := SortDesc(xs, key);
    SortStable(xs, key, k);
    FilterAll(HasKey(key, k), xs);
    forall y | y in r ensures HasKey(key, k)(y) {
      assert y in multiset(xs);
    }
    FilterAll(HasKey(key, k), r);
  }

  /** The first element of the sorted result has the largest key. */
  lemma SortHeadIsMax<T(!new)>(xs: seq<T>, key: T -> int)
    requires xs != []
    ensures forall x :: x in xs ==> key(SortDesc(xs, key)[0]) >= key(x)
  {
    var r := SortDesc(xs, key);
    forall x | x in xs ensures key(r[0]) >= key(x) {
      assert x in multiset(r);
      var j :| 0 <= j < |r| && r[j] == x;
    }
  }
}
