/**
 * The Python built-ins the engine is written with, on sequences:
 * `filter`, `map`, `min`/`max` with `default=None`, and `sorted(set(...))`.
 */
module Sequences {
  import opened Wrappers

  /** Python's `list(filter(p, s))`: the elements of `s` satisfying `p`, in their original order. */
  function Filter<T(!new)>(p: T -> bool, s: seq<T>): (r: seq<T>)
    ensures |r| <= |s|
    ensures forall x {:trigger x in r} :: x in r <==> x in s && p(x)
  {
    if s == [] then [] else (if p(s[0]) then [s[0]] else []) + Filter(p, s[1..])
  }

  /** Filtering distributes over concatenation: the kept elements keep their relative order. */
  lemma {:induction false} FilterConcat<T(!new)>(p: T -> bool, a: seq<T>, b: seq<T>)
    ensures Filter(p, a + b) == Filter(p, a) + Filter(p, b)
  {
    if a == [] {
      assert a + b == b;
    } else {
      assert (a + b)[0] == a[0];
      assert (a + b)[1..] == a[1..] + b;
      FilterConcat(p, a[1..], b);
      var head := if p(a[0]) then [a[0]] else [];
      assert Filter(p, a + b) == head + (Filter(p, a[1..]) + Filter(p, b));
      assert Filter(p, a) == head + Filter(p, a[1..]);
      assert head + (Filter(p, a[1..]) + Filter(p, b)) == (head + Filter(p, a[1..])) + Filter(p, b);
    }
  }

  /** Filtering a sequence whose every element passes returns it unchanged. */
  lemma {:induction false} FilterAll<T(!new)>(p: T -> bool, s: seq<T>)
    requires forall x :: x in s ==> p(x)
    ensures Filter(p, s) == s
  {
    if s != [] {
      assert s[0] in s;
      assert forall x :: x in s[1..] ==> x in s;
      FilterAll(p, s[1..]);
      assert [s[0]] + s[1..] == s;
    }
  }

  /** Filtering a sequence none of whose elements passes gives the empty sequence. */
  lemma FilterNone<T(!new)>(p: T -> bool, s: seq<T>)
    requires forall x :: x in s ==> !p(x)
    ensures Filter(p, s) == []
  {
  }

  /** Filtering twice by the same predicate is filtering once. */
  lemma FilterIdempotent<T(!new)>(p: T -> bool, s: seq<T>)
    ensures Filter(p, Filter(p, s)) == Filter(p, s)
  {
    FilterAll(p, Filter(p, s));
  }

  /** Filtering a one-element sequence. */
  lemma FilterSingleton<T(!new)>(p: T -> bool, x: T)
    ensures Filter(p, [x]) == if p(x) then [x] else []
  {
    assert [x][1..] == [];
  }

  /** Appending to an already filtered sequence and filtering again is filtering once. */
  lemma FilterSnocFiltered<T(!new)>(p: T -> bool, s: seq<T>, x: T)
    ensures Filter(p, Filter(p, s) + [x]) == Filter(p, s + [x])
  {
    calc {
      Filter(p, Filter(p, s) + [x]);
    == { FilterConcat(p, Filter(p, s), [x]); }
      Filter(p, Filter(p, s)) + Filter(p, [x]);
    == { FilterIdempotent(p, s); }
      Filter(p, s) + Filter(p, [x]);
    == { FilterConcat(p, s, [x]); }
      Filter(p, s + [x]);
    }
  }

  /** Extending the filtered prefix of `s` by one element. */
  lemma FilterSnoc<T(!new)>(p: T -> bool, s: seq<T>, i: nat)
    requires i < |s|
    ensures Filter(p, s[..i + 1]) == Filter(p, s[..i]) + (if p(s[i]) then [s[i]] else [])
  {
    assert s[..i + 1] == s[..i] + [s[i]];
    FilterConcat(p, s[..i], [s[i]]);
    FilterSingleton(p, s[i]);
  }

  /** The first element that `filter` keeps is the first element of `s` that passes. */
  lemma {:induction false} FilterFirst<T(!new)>(p: T -> bool, s: seq<T>)
    requires Filter(p, s) != []
    ensures exists i :: 0 <= i < |s| && s[i] == Filter(p, s)[0] && p(s[i]) && (forall j :: 0 <= j < i ==> !p(s[j]))
  {
    assert s != [];
    if p(s[0]) {
      assert s[0] == Filter(p, s)[0];
    } else {
      assert Filter(p, s) == Filter(p, s[1..]);
      FilterFirst(p, s[1..]);
      var i :| 0 <= i < |s[1..]| && s[1..][i] == Filter(p, s[1..])[0] && p(s[1..][i]) &&
        (forall j :: 0 <= j < i ==> !p(s[1..][j]));
      assert s[i + 1] == s[1..][i];
      forall j | 0 <= j < i + 1 ensures !p(s[j]) {
        if j > 0 {
          assert s[j] == s[1..][j - 1];
        }
      }
    }
  }

  /** Filtering by `p` and then by `q` is filtering once by their conjunction `pq`. */
  lemma {:induction false} FilterFilter<T(!new)>(p: T -> bool, q: T -> bool, pq: T -> bool, s: seq<T>)
    requires forall x :: pq(x) == (p(x) && q(x))
    ensures Filter(q, Filter(p, s)) == Filter(pq, s)
  {
    if s != [] {
      FilterFilter(p, q, pq, s[1..]);
      var head := if p(s[0]) then [s[0]] else [];
      assert Filter(p, s) == head + Filter(p, s[1..]);
      FilterConcat(q, head, Filter(p, s[1..]));
      if p(s[0]) {
        FilterSingleton(q, s[0]);
      } else {
        assert Filter(q, head) == [];
      }
    }
  }

  /** Python's `list(map(f, s))`. */
  function Map<T, U>(f: T -> U, s: seq<T>): (r: seq<U>)
    ensures |r| == |s|
    ensures forall i :: 0 <= i < |s| ==> r[i] == f(s[i])
  {
    seq(|s|, i requires 0 <= i < |s| => f(s[i]))
  }

  /** Mapping one more element appends its image. */
  lemma MapSnoc<T, U>(f: T -> U, s: seq<T>, x: T)
    ensures Map(f, s + [x]) == Map(f, s) + [f(x)]
  {
  }

  /** Every element of `map(f, s)` is the image of an element of `s`, and conversely. */
  lemma MapIn<T, U>(f: T -> U, s: seq<T>, y: U)
    ensures y in Map(f, s) <==> exists x :: x in s && f(x) == y
  {
    var r := Map(f, s);
    if y in r {
      var i :| 0 <= i < |r| && r[i] == y;
      assert s[i] in s;
    }
    if exists x :: x in s && f(x) == y {
      var x :| x in s && f(x) == y;
      var i :| 0 <= i < |s| && s[i] == x;
      assert r[i] == y;
    }
  }

  /** `MapIn` for every value at once. */
  lemma MapInAll<T, U>(f: T -> U, s: seq<T>)
    ensures forall y :: y in Map(f, s) <==> exists x :: x in s && f(x) == y
  {
    forall y ensures y in Map(f, s) <==> exists x :: x in s && f(x) == y {
      MapIn(f, s, y);
    }
  }

  /** Python's `min(xs, default=None)`. */
  function Min(xs: seq<int>): (r: Option<int>)
    ensures r.None? <==> xs == []
    ensures r.Some? ==> r.value in xs && forall x :: x in xs ==> r.value <= x
  {
    if xs == [] then None
    else
      assert forall x :: x in xs ==> x == xs[0] || x in xs[1..];
      match Min(xs[1..])
      case None => Some(xs[0])
      case Some(m) => Some(if xs[0] <= m then xs[0] else m)
  }

  /** Python's `max(xs, default=None)`. */
  function Max(xs: seq<int>): (r: Option<int>)
    ensures r.None? <==> xs == []
    ensures r.Some? ==> r.value in xs && forall x :: x in xs ==> x <= r.value
  {
    if xs == [] then None
    else
      assert forall x :: x in xs ==> x == xs[0] || x in xs[1..];
      match Max(xs[1..])
      case None => Some(xs[0])
      case Some(m) => Some(if xs[0] >= m then xs[0] else m)
  }

  /** The minimum of a sequence never exceeds its maximum, and both are defined together. */
  lemma MinAtMostMax(xs: seq<int>)
    ensures Min(xs).Some? <==> Max(xs).Some?
    ensures Min(xs).Some? ==> Min(xs).value <= Max(xs).value
  {
  }

  ghost predicate StrictlyIncreasing(s: seq<int>) {
    forall i, j :: 0 <= i < j < |s| ==> s[i] < s[j]
  }

  /** Putting a value below every element in front of a strictly increasing sequence. */
  lemma ConsIncreasing(x: int, s: seq<int>)
    requires StrictlyIncreasing(s)
    requires forall y :: y in s ==> x < y
    ensures StrictlyIncreasing([x] + s)
  {
    var r := [x] + s;
    forall i, j | 0 <= i < j < |r| ensures r[i] < r[j] {
      assert r[j] == s[j - 1];
      if i > 0 {
        assert r[i] == s[i - 1];
      } else {
        assert s[j - 1] in s;
      }
    }
  }

  /** Inserts `x` at its place in a strictly increasing sequence, unless it is already there. */
  function Insert(x: int, s: seq<int>): (r: seq<int>)
    requires StrictlyIncreasing(s)
    ensures StrictlyIncreasing(r)
    ensures forall y :: y in r <==> y == x || y in s
  {
    if s == [] then [x]
    else
      assert forall y :: y in s ==> y == s[0] || s[0] < y;
      assert forall y :: y in s[1..] ==> y in s && s[0] < y;
      if x < s[0] then
        ConsIncreasing(x, s);
        [x] + s
      else if x == s[0] then s
      else
        var rest := Insert(x, s[1..]);
        ConsIncreasing(s[0], rest);
        assert s == [s[0]] + s[1..];
        [s[0]] + rest
  }

  /** Python's `sorted(set(xs))`: the distinct elements of `xs` in ascending order. */
  function SortedDistinct(xs: seq<int>): (r: seq<int>)
    ensures StrictlyIncreasing(r)
    ensures forall y :: y in r <==> y in xs
  {
    if xs == [] then [] else Insert(xs[0], SortedDistinct(xs[1..]))
  }

  /**
   * A strictly increasing sequence is determined by its elements, so `SortedDistinct`
   * is THE ascending listing of the distinct values.
   */
  lemma {:induction false} StrictlyIncreasingUnique(a: seq<int>, b: seq<int>)
    requires StrictlyIncreasing(a) && StrictlyIncreasing(b)
    requires forall y :: y in a <==> y in b
    ensures a == b
  {
    assert a != [] ==> a[0] in a && a[0] in b;
    assert b != [] ==> b[0] in b && b[0] in a;
    if a != [] && b != [] {
      assert a[0] in b && b[0] in a;
      assert a[0] == b[0];
      forall y ensures y in a[1..] <==> y in b[1..] {
        if y in a[1..] {
          var j :| 1 <= j < |a| && a[j] == y;
          assert y in a;
          var k :| 0 <= k < |b| && b[k] == y;
          assert k != 0;
          assert b[1..][k - 1] == y;
        }
        if y in b[1..] {
          var j :| 1 <= j < |b| && b[j] == y;
          assert y in b;
          var k :| 0 <= k < |a| && a[k] == y;
          assert k != 0;
          assert a[1..][k - 1] == y;
        }
      }
      StrictlyIncreasingUnique(a[1..], b[1..]);
      assert a == [a[0]] + a[1..] && b == [b[0]] + b[1..];
    }
  }

  /** `functools.reduce(f, xs, init)` for a step that may raise: the first failure ends the fold. */
  function Reduce<S, X, E>(f: (S, X) -> Result<S, E>, init: S, xs: seq<X>): Result<S, E>
    decreases |xs|
  {
    if xs == [] then Ok(init)
    else match f(init, xs[0])
      case Err(e) => Err(e)
      case Ok(next) => Reduce(f, next, xs[1..])
  }

  /**
   * A fold whose step appends one element to the sequence it is given appends one element per
   * input, and each prefix of the result is the step applied to the prefix before it.
   */
  lemma {:induction false} ReduceAppends<A, X, E>(f: (seq<A>, X) -> Result<seq<A>, E>, init: seq<A>, xs: seq<X>)
    requires forall s, x :: f(s, x).Ok? ==> |f(s, x).value| == |s| + 1 && f(s, x).value[..|s|] == s
    requires Reduce(f, init, xs).Ok?
    ensures var r := Reduce(f, init, xs).value;
      && |r| == |init| + |xs| && r[..|init|] == init
      && forall i :: |init| <= i < |r| ==> f(r[..i], xs[i - |init|]) == Ok(r[..i + 1])
    decreases |xs|
  {
    if xs != [] {
      var next := f(init, xs[0]).value;
      ReduceAppends(f, next, xs[1..]);
      var r := Reduce(f, init, xs).value;
      assert r == Reduce(f, next, xs[1..]).value;
      assert r[..|next|] == next;
      assert r[..|init|] == next[..|init|] == init;
      forall i | |init| <= i < |r| ensures f(r[..i], xs[i - |init|]) == Ok(r[..i + 1]) {
        if i == |init| {
          assert r[..i + 1] == next;
        } else {
          assert xs[1..][i - |next|] == xs[i - |init|];
        }
      }
    }
  }

  /** A failing fold failed at one of its inputs, on some accumulated value. */
  lemma {:induction false} ReduceFails<S, X, E>(f: (S, X) -> Result<S, E>, init: S, xs: seq<X>)
    requires Reduce(f, init, xs).Err?
    ensures exists s, i :: 0 <= i < |xs| && f(s, xs[i]) == Err(Reduce(f, init, xs).error)
    decreases |xs|
  {
    if f(init, xs[0]).Err? {
      assert f(init, xs[0]) == Err(Reduce(f, init, xs).error);
    } else {
      ReduceFails(f, f(init, xs[0]).value, xs[1..]);
      var s, i :| 0 <= i < |xs[1..]| && f(s, xs[1..][i]) == Err(Reduce(f, init, xs).error);
      assert xs[1..][i] == xs[i + 1];
    }
  }
}
