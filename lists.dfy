/**
 * The two array transformations the client applies to its lists:
 * `xs.filter(p)` and `xs.map(x => hit(x) ? f(x) : x)`.
 */
module Lists {

  /** The complement of a predicate (`x => !p(x)`). */
  function Not<T(!new)>(p: T -> bool): T -> bool {
    x => !p(x)
  }

  /** The constant function (`_ => v`). */
  function Always<T(!new)>(v: T): T -> T {
    _ => v
  }

  /**
   * `xs.filter(p)`: exactly the elements of `xs` that satisfy `p`, never
   * more of them than `xs` has.
   */
  function Filter<T(!new)>(xs: seq<T>, p: T -> bool): (r: seq<T>)
    ensures |r| <= |xs|
    ensures forall x :: x in r <==> x in xs && p(x)
    ensures forall i :: 0 <= i < |r| ==> p(r[i])
  {
    if xs == [] then []
    else if p(xs[0]) then [xs[0]] + Filter(xs[1..], p)
    else Filter(xs[1..], p)
  }

  /** Filtering distributes over concatenation: the relative order of the kept elements is that of `xs`. */
  lemma {:induction false} FilterConcat<T(!new)>(a: seq<T>, b: seq<T>, p: T -> bool)
    ensures Filter(a + b, p) == Filter(a, p) + Filter(b, p)
  {
    if a != [] {
      assert (a + b)[0] == a[0] && (a + b)[1..] == a[1..] + b;
      FilterConcat(a[1..], b, p);
      if p(a[0]) {
        assert Filter(a + b, p) == [a[0]] + Filter(a[1..] + b, p);
        assert Filter(a, p) == [a[0]] + Filter(a[1..], p);
      }
    } else {
      assert a + b == b;
    }
  }

  /** A filter and the filter by the complement split `xs`: together they hold every element exactly as often as `xs` does. */
  lemma {:induction false} FilterPartition<T(!new)>(xs: seq<T>, p: T -> bool)
    ensures multiset(Filter(xs, p)) + multiset(Filter(xs, Not(p))) == multiset(xs)
    ensures |Filter(xs, p)| + |Filter(xs, Not(p))| == |xs|
  {
    if xs != [] {
      FilterPartition(xs[1..], p);
      assert xs == [xs[0]] + xs[1..];
    }
  }

  /**
   * Filtering by three predicates of which every element satisfies exactly
   * one splits the list: each element lands in exactly one of the results.
   */
  lemma {:induction false} FilterPartition3<T(!new)>(xs: seq<T>, p: T -> bool, q: T -> bool, r: T -> bool)
    requires forall x :: p(x) || q(x) || r(x)
    requires forall x :: !(p(x) && q(x)) && !(p(x) && r(x)) && !(q(x) && r(x))
    ensures multiset(Filter(xs, p)) + multiset(Filter(xs, q)) + multiset(Filter(xs, r)) == multiset(xs)
    ensures |Filter(xs, p)| + |Filter(xs, q)| + |Filter(xs, r)| == |xs|
  {
    if xs != [] {
      FilterPartition3(xs[1..], p, q, r);
      assert xs == [xs[0]] + xs[1..];
    }
  }

  /** The positions of `xs` whose element satisfies `p`. */
  function Hits<T(!new)>(xs: seq<T>, p: T -> bool): set<int> {
    set i | 0 <= i < |xs| && p(xs[i])
  }

  /** Appending one element adds its position to the hits exactly when it satisfies `p`. */
  lemma HitsSnoc<T(!new)>(ys: seq<T>, x: T, p: T -> bool)
    ensures Hits(ys + [x], p) == Hits(ys, p) + (if p(x) then {|ys|} else {})
  {
    var xs := ys + [x];
    forall i | 0 <= i < |ys|
      ensures xs[i] == ys[i]
    {
    }
  }

  /** `xs.filter(p).length` is the number of positions of `xs` whose element satisfies `p`. */
  lemma {:induction false} FilterLength<T(!new)>(xs: seq<T>, p: T -> bool)
    ensures |Filter(xs, p)| == |Hits(xs, p)|
  {
    if xs == [] {
      assert Hits(xs, p) == {};
    } else {
      var n := |xs| - 1;
      var ys, x := xs[..n], xs[n];
      assert xs == ys + [x];
      FilterConcat(ys, [x], p);
      FilterLength(ys, p);
      HitsSnoc(ys, x, p);
      assert Filter([x], p) == if p(x) then [x] else [];
      assert n !in Hits(ys, p);
    }
  }

  /** When every element satisfies `p`, filtering keeps the list as it is. */
  lemma {:induction false} FilterAll<T(!new)>(xs: seq<T>, p: T -> bool)
    requires forall i :: 0 <= i < |xs| ==> p(xs[i])
    ensures Filter(xs, p) == xs
  {
    if xs != [] {
      FilterAll(xs[1..], p);
    }
  }

  /** When no element satisfies `p`, filtering leaves nothing. */
  lemma {:induction false} FilterNone<T(!new)>(xs: seq<T>, p: T -> bool)
    requires forall i :: 0 <= i < |xs| ==> !p(xs[i])
    ensures Filter(xs, p) == []
  {
    if xs != [] {
      FilterNone(xs[1..], p);
    }
  }

  /**
   * The first element a filter keeps is the first element of `xs` that
   * satisfies `p`: no element before it does.
   */
  lemma {:induction false} FilterFirst<T(!new)>(xs: seq<T>, p: T -> bool)
    requires |Filter(xs, p)| > 0
    ensures exists k :: 0 <= k < |xs| && xs[k] == Filter(xs, p)[0] && forall i :: 0 <= i < k ==> !p(xs[i])
  {
    if !p(xs[0]) {
      FilterFirst(xs[1..], p);
      var k :| 0 <= k < |xs[1..]| && xs[1..][k] == Filter(xs[1..], p)[0]
        && forall i :: 0 <= i < k ==> !p(xs[1..][i]);
      assert xs[k + 1] == Filter(xs, p)[0];
      forall i | 0 <= i < k + 1
        ensures !p(xs[i])
      {
        if i > 0 {
          assert xs[i] == xs[1..][i - 1];
        }
      }
    } else {
      assert xs[0] == Filter(xs, p)[0];
    }
  }

  /**
   * Exchanging two neighbours that `p` does not both keep leaves the filter
   * as it is.
   */
  lemma {:induction false} FilterSwap<T(!new)>(pre: seq<T>, x: T, y: T, post: seq<T>, p: T -> bool)
    requires !(p(x) && p(y))
    ensures Filter(pre + [y, x] + post, p) == Filter(pre + [x, y] + post, p)
  {
    assert Filter([x, y], p) == Filter([y, x], p) by {
      assert [x, y][1..] == [y] && [y, x][1..] == [x];
    }
    FilterConcat(pre, [x, y], p);
    FilterConcat(pre, [y, x], p);
    FilterConcat(pre + [x, y], post, p);
    FilterConcat(pre + [y, x], post, p);
  }

  /** Filtering twice by the same predicate is filtering once. */
  lemma FilterIdempotent<T(!new)>(xs: seq<T>, p: T -> bool)
    ensures Filter(Filter(xs, p), p) == Filter(xs, p)
  {
    FilterAll(Filter(xs, p), p);
  }

  /**
   * `xs.map(x => hit(x) ? f(x) : x)`: same length, every hit element
   * rewritten by `f`, every other element untouched, in place.
   */
  function MapWhere<T(!new)>(xs: seq<T>, hit: T -> bool, f: T -> T): (r: seq<T>)
    ensures |r| == |xs|
    ensures forall i :: 0 <= i < |xs| && hit(xs[i]) ==> r[i] == f(xs[i])
    ensures forall i :: 0 <= i < |xs| && !hit(xs[i]) ==> r[i] == xs[i]
  {
    if xs == [] then []
    else [if hit(xs[0]) then f(xs[0]) else xs[0]] + MapWhere(xs[1..], hit, f)
  }

  /** A map that hits no element returns the list unchanged. */
  lemma MapWhereNoHit<T(!new)>(xs: seq<T>, hit: T -> bool, f: T -> T)
    requires forall i :: 0 <= i < |xs| ==> !hit(xs[i])
    ensures MapWhere(xs, hit, f) == xs
  {
  }

  /**
   * When `f` keeps its results hit and is idempotent, mapping twice is
   * mapping once.
   */
  lemma MapWhereTwice<T(!new)>(xs: seq<T>, hit: T -> bool, f: T -> T)
    requires forall x :: hit(x) ==> hit(f(x)) && f(f(x)) == f(x)
    ensures MapWhere(MapWhere(xs, hit, f), hit, f) == MapWhere(xs, hit, f)
  {
  }
}
