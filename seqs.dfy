/** The array pipeline operations the application composes: `filter`, `map`,
    `slice(0, n)` and `Array.from(new Set(xs))` (deduplication in insertion
    order), with the facts about them that the rest of the model uses. */
module Seqs {

  /** `xs.filter(p)`. */
  function Filter<T(!new)>(p: T -> bool, xs: seq<T>): (r: seq<T>)
    ensures |r| <= |xs|
    ensures forall x :: x in r <==> x in xs && p(x)
  {
    if xs == [] then [] else (if p(xs[0]) then [xs[0]] else []) + Filter(p, xs[1..])
  }

  /** The filter of a sequence with a known first element. */
  lemma FilterCons<T(!new)>(p: T -> bool, y: T, xs: seq<T>)
    ensures Filter(p, [y] + xs) == if p(y) then [y] + Filter(p, xs) else Filter(p, xs)
  {
    assert ([y] + xs)[0] == y && ([y] + xs)[1..] == xs;
  }

  lemma {:induction false} FilterConcat<T(!new)>(p: T -> bool, a: seq<T>, b: seq<T>)
    ensures Filter(p, a + b) == Filter(p, a) + Filter(p, b)
  {
    if a == [] {
      assert a + b == b;
    } else {
      assert (a + b)[0] == a[0];
      assert (a + b)[1..] == a[1..] + b;
      FilterConcat(p, a[1..], b);
    }
  }

  /** When `xs[i]` is the first element that passes, the filter starts with it. */
  lemma {:induction false} FilterFirst<T(!new)>(p: T -> bool, xs: seq<T>, i: int)
    requires 0 <= i < |xs| && p(xs[i])
    requires forall j :: 0 <= j < i ==> !p(xs[j])
    ensures Filter(p, xs) == [xs[i]] + Filter(p, xs[i + 1..])
  {
    var t := xs[1..];
    assert xs == [xs[0]] + t;
    FilterCons(p, xs[0], t);
    if i > 0 {
      assert !p(xs[0]);
      forall j | 0 <= j < i - 1 ensures !p(t[j]) {
        assert t[j] == xs[j + 1];
      }
      FilterFirst(p, t, i - 1);
      assert t[i - 1] == xs[i] && t[i..] == xs[i + 1..];
    }
  }

  /** The filter of a one-element sequence. */
  lemma FilterSingle<T(!new)>(p: T -> bool, x: T)
    ensures Filter(p, [x]) == if p(x) then [x] else []
  {
    FilterCons(p, x, []);
    assert [x] + [] == [x];
  }

  /** A filter that every element passes keeps the whole sequence. */
  lemma {:induction false} FilterAll<T(!new)>(p: T -> bool, xs: seq<T>)
    requires forall x :: x in xs ==> p(x)
    ensures Filter(p, xs) == xs
  {
    if xs != [] {
      FilterAll(p, xs[1..]);
    }
  }

  /** A filter that no element passes keeps nothing. */
  lemma FilterNone<T(!new)>(p: T -> bool, xs: seq<T>)
    requires forall x :: x in xs ==> !p(x)
    ensures Filter(p, xs) == []
  {
  }

  /** `xs.map(f)`. */
  function Map<T, U>(f: T -> U, xs: seq<T>): (r: seq<U>)
    ensures |r| == |xs|
    ensures forall i :: 0 <= i < |xs| ==> r[i] == f(xs[i])
  {
    seq(|xs|, i requires 0 <= i < |xs| => f(xs[i]))
  }

  /** `y` is in the image exactly when some element maps to it. */
  lemma MapMembers<T, U>(f: T -> U, xs: seq<T>, y: U)
    ensures y in Map(f, xs) <==> exists x :: x in xs && f(x) == y
  {
    if y in Map(f, xs) {
      var j :| 0 <= j < |xs| && Map(f, xs)[j] == y;
      assert xs[j] in xs;
    }
    if exists x :: x in xs && f(x) == y {
      var x :| x in xs && f(x) == y;
      var j :| 0 <= j < |xs| && xs[j] == x;
      assert Map(f, xs)[j] == y;
    }
  }

  /** `xs.slice(0, n)`: the first `n` elements, or all of them. */
  function Take<T>(xs: seq<T>, n: nat): (r: seq<T>)
    ensures |r| == if |xs| <= n then |xs| else n
    ensures r == xs[..|r|]
  {
    if |xs| <= n then xs else xs[..n]
  }

  /** Mapping commutes with taking a prefix. */
  lemma MapTake<T, U>(f: T -> U, xs: seq<T>, n: nat)
    ensures Map(f, Take(xs, n)) == Take(Map(f, xs), n)
  {
    assert |Map(f, Take(xs, n))| == |Take(Map(f, xs), n)|;
    forall i | 0 <= i < |Take(xs, n)| ensures Map(f, Take(xs, n))[i] == Take(Map(f, xs), n)[i] {
      assert Take(xs, n)[i] == xs[i];
    }
  }

  /** `a` is a subsequence of `b`: `b` with some elements left out. */
  ghost predicate IsSubseq<T>(a: seq<T>, b: seq<T>)
  {
    if a == [] then true
    else if b == [] then false
    else (a[0] == b[0] && IsSubseq(a[1..], b[1..])) || IsSubseq(a, b[1..])
  }

  /** A filter keeps the original order. */
  lemma {:induction false} FilterIsSubseq<T(!new)>(p: T -> bool, xs: seq<T>)
    ensures IsSubseq(Filter(p, xs), xs)
  {
    if xs != [] {
      FilterIsSubseq(p, xs[1..]);
      var r := Filter(p, xs);
      if p(xs[0]) {
        assert r[0] == xs[0] && r[1..] == Filter(p, xs[1..]);
      } else {
        assert r == Filter(p, xs[1..]);
      }
    }
  }

  /** Mapping both sides preserves being a subsequence. */
  lemma {:induction false} MapSubseq<T, U>(f: T -> U, a: seq<T>, b: seq<T>)
    requires IsSubseq(a, b)
    ensures IsSubseq(Map(f, a), Map(f, b))
  {
    if a != [] {
      assert Map(f, b[1..]) == Map(f, b)[1..];
      if a[0] == b[0] && IsSubseq(a[1..], b[1..]) {
        MapSubseq(f, a[1..], b[1..]);
        assert Map(f, a[1..]) == Map(f, a)[1..];
      } else {
        MapSubseq(f, a, b[1..]);
      }
    }
  }

  /** Filtering by a stronger condition keeps a subsequence of what the
      weaker condition keeps. */
  lemma {:induction false} FilterStronger<T(!new)>(p: T -> bool, q: T -> bool, xs: seq<T>)
    requires forall x :: x in xs && p(x) ==> q(x)
    ensures IsSubseq(Filter(p, xs), Filter(q, xs))
  {
    if xs != [] {
      FilterStronger(p, q, xs[1..]);
      var a := Filter(p, xs);
      var b := Filter(q, xs);
      if p(xs[0]) {
        assert a[0] == b[0] && a[1..] == Filter(p, xs[1..]) && b[1..] == Filter(q, xs[1..]);
      } else if q(xs[0]) {
        assert a == Filter(p, xs[1..]) && b[1..] == Filter(q, xs[1..]);
        SubseqDropFront(a, b);
      } else {
        assert a == Filter(p, xs[1..]) && b == Filter(q, xs[1..]);
      }
    }
  }

  /** A subsequence of the tail is a subsequence of the whole. */
  lemma SubseqDropFront<T>(a: seq<T>, b: seq<T>)
    requires b != [] && IsSubseq(a, b[1..])
    ensures IsSubseq(a, b)
  {
  }

  /** Every sequence is a subsequence of itself. */
  lemma {:induction false} SubseqRefl<T>(xs: seq<T>)
    ensures IsSubseq(xs, xs)
  {
    if xs != [] {
      SubseqRefl(xs[1..]);
    }
  }

  /** No element occurs twice. */
  predicate Distinct<T(==,!new)>(xs: seq<T>)
  {
    forall i, j :: 0 <= i < j < |xs| ==> xs[i] != xs[j]
  }

  /** `Array.from(new Set(xs))`: each element once, in the order in which
      a `Set` first received it. */
  function Dedup<T(==,!new)>(xs: seq<T>): (r: seq<T>)
    ensures Distinct(r)
    ensures forall x :: x in r <==> x in xs
    ensures |r| <= |xs|
  {
    if xs == [] then []
    else
      var d := Dedup(xs[..|xs| - 1]);
      var x := xs[|xs| - 1];
      assert forall y :: y in xs <==> y in xs[..|xs| - 1] || y == x by {
        assert xs == xs[..|xs| - 1] + [x];
      }
      if x in d then d else d + [x]
  }

  /** Index of the first occurrence of `x` in `xs`. */
  function FirstIndex<T(==,!new)>(xs: seq<T>, x: T): (i: nat)
    requires x in xs
    ensures i < |xs| && xs[i] == x
    ensures forall j :: 0 <= j < i ==> xs[j] != x
  {
    if xs[0] == x then 0 else 1 + FirstIndex(xs[1..], x)
  }

  lemma {:induction false} FirstIndexPrefix<T(!new)>(xs: seq<T>, y: T, x: T)
    requires x in xs
    ensures FirstIndex(xs + [y], x) == FirstIndex(xs, x)
  {
    var i := FirstIndex(xs, x);
    var k := FirstIndex(xs + [y], x);
    assert (xs + [y])[i] == x;
    assert k <= i;
    assert xs[k] == (xs + [y])[k];
  }

  /** Deduplication keeps first occurrences in their original order. */
  lemma {:induction false} DedupOrder<T(!new)>(xs: seq<T>)
    ensures forall i, j :: 0 <= i < j < |Dedup(xs)| ==>
      FirstIndex(xs, Dedup(xs)[i]) < FirstIndex(xs, Dedup(xs)[j])
  {
    if xs != [] {
      var pre := xs[..|xs| - 1];
      var x := xs[|xs| - 1];
      var d := Dedup(pre);
      assert xs == pre + [x];
      DedupOrder(pre);
      forall y | y in d ensures FirstIndex(xs, y) == FirstIndex(pre, y) {
        FirstIndexPrefix(pre, x, y);
      }
      if x !in d {
        assert x !in pre;
        assert FirstIndex(xs, x) == |pre|;
        var r := d + [x];
        forall i, j | 0 <= i < j < |r| ensures FirstIndex(xs, r[i]) < FirstIndex(xs, r[j]) {
          assert r[i] in d;
          if j < |d| { assert r[j] in d; }
        }
      }
    }
  }

  /** Putting an element in front of a repetition-free sequence that lacks
      it keeps it free of repetitions. */
  lemma DistinctCons<T(!new)>(x: T, u: seq<T>)
    requires Distinct(u) && x !in u
    ensures Distinct([x] + u)
  {
    var all := [x] + u;
    forall i, j | 0 <= i < j < |all| ensures all[i] != all[j] {
      if i > 0 {
        assert all[i] == u[i - 1] && all[j] == u[j - 1];
      } else {
        assert all[j] in u;
      }
    }
  }

  /** A sequence without repetitions is its own deduplication. */
  lemma {:induction false} DedupDistinct<T(!new)>(xs: seq<T>)
    requires Distinct(xs)
    ensures Dedup(xs) == xs
  {
    if xs != [] {
      var pre := xs[..|xs| - 1];
      assert Distinct(pre);
      DedupDistinct(pre);
      assert xs[|xs| - 1] !in pre;
      assert xs == pre + [xs[|xs| - 1]];
    }
  }

  /** Deduplicating twice is deduplicating once. */
  lemma DedupIdempotent<T(!new)>(xs: seq<T>)
    ensures Dedup(Dedup(xs)) == Dedup(xs)
  {
    DedupDistinct(Dedup(xs));
  }

  lemma TakeDistinct<T(!new)>(xs: seq<T>, n: nat)
    requires Distinct(xs)
    ensures Distinct(Take(xs, n))
  {
  }
}
