module Options {
  datatype Option<T> = None | Some(value: T)
}

/** Sequences without duplicates, and sets of small numbers. */
module Collections {

  predicate Distinct<T(==)>(xs: seq<T>) {
    forall i, j :: 0 <= i < j < |xs| ==> xs[i] != xs[j]
  }

  /** Removes an element wherever it occurs. */
  function Without<T(==)>(xs: seq<T>, x: T): seq<T> {
    if xs == [] then [] else (if xs[0] == x then [] else [xs[0]]) + Without(xs[1..], x)
  }

  lemma {:induction false} WithoutMembers<T>(xs: seq<T>, x: T)
    ensures forall y :: y in Without(xs, x) <==> y in xs && y != x
    ensures Distinct(xs) ==> Distinct(Without(xs, x))
    ensures x !in xs ==> Without(xs, x) == xs
  {
    if xs != [] {
      WithoutMembers(xs[1..], x);
      assert xs == [xs[0]] + xs[1..];
      if Distinct(xs) {
        assert Distinct(xs[1..]) && xs[0] !in xs[1..];
        assert xs[0] !in Without(xs[1..], x);
      }
    }
  }

  lemma {:induction false} WithoutConcat<T>(xs: seq<T>, ys: seq<T>, x: T)
    ensures Without(xs + ys, x) == Without(xs, x) + Without(ys, x)
  {
    if xs == [] {
      assert xs + ys == ys;
    } else {
      assert (xs + ys)[0] == xs[0] && (xs + ys)[1..] == xs[1..] + ys;
      WithoutConcat(xs[1..], ys, x);
    }
  }

  /** From a duplicate-free sequence, exactly one element is removed. */
  lemma {:induction false} WithoutOne<T>(xs: seq<T>, x: T)
    requires Distinct(xs) && x in xs
    ensures |Without(xs, x)| == |xs| - 1
  {
    var rest := xs[1..];
    assert xs == [xs[0]] + rest && Distinct(rest) && xs[0] !in rest;
    if xs[0] == x {
      WithoutMembers(rest, x);
    } else {
      WithoutOne(rest, x);
    }
  }

  lemma {:induction false} WithoutAbsent<T>(xs: seq<T>, x: T)
    requires x !in xs
    ensures Without(xs, x) == xs
  {
    if xs != [] { WithoutAbsent(xs[1..], x); }
  }

  /** In a duplicate-free sequence, that is cutting it out where it is. */
  lemma {:induction false} WithoutAt<T>(xs: seq<T>, k: nat)
    requires Distinct(xs) && k < |xs|
    ensures Without(xs, xs[k]) == xs[..k] + xs[k + 1..]
  {
    if k == 0 {
      WithoutAbsent(xs[1..], xs[0]);
    } else {
      WithoutAt(xs[1..], k - 1);
      assert xs[1..][..k - 1] == xs[1..k] && xs[1..][k..] == xs[k + 1..];
      assert xs[..k] == [xs[0]] + xs[1..k];
    }
  }

  lemma {:induction false} RangeCard(s: set<nat>, n: nat)
    requires forall x :: x in s ==> x < n
    ensures |s| <= n
    ensures |s| == n ==> forall x: nat :: x < n ==> x in s
  {
    if n > 0 {
      var t := s - {n - 1};
      RangeCard(t, n - 1);
      if n - 1 !in s {
        assert t == s;
      } else {
        assert |t| == |s| - 1;
      }
    } else {
      assert s == {};
    }
  }

  lemma {:induction false} FullRange(s: set<nat>, n: nat)
    ensures (forall x: nat :: x < n ==> x in s) ==> |s| >= n
  {
    if n > 0 && forall x: nat :: x < n ==> x in s {
      FullRange(s - {n - 1}, n - 1);
    }
  }
}
