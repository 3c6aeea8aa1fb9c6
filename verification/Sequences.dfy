/** Joining, adding up and repeating: the sequence functions that several models share. */
module Sequences {
  import Division

  function Flat<X>(parts: seq<seq<X>>): seq<X> { if parts == [] then [] else parts[0] + Flat(parts[1..]) }

  lemma {:induction false} FlatAppend<X>(a: seq<seq<X>>, b: seq<seq<X>>)
    ensures Flat(a + b) == Flat(a) + Flat(b)
  {
    if a == [] {
      assert a + b == b;
    } else {
      assert (a + b)[1..] == a[1..] + b;
      FlatAppend(a[1..], b);
    }
  }

  lemma FlatPush<X>(a: seq<seq<X>>, last: seq<X>)
    ensures Flat(a + [last]) == Flat(a) + last
  {
    FlatAppend(a, [last]);
    assert [last][1..] == [] && Flat([last]) == last + [];
  }

  function Sum(s: seq<int>): (total: int)
    ensures (forall i :: 0 <= i < |s| ==> s[i] >= 0) ==> total >= 0
  {
    if s == [] then 0 else s[0] + Sum(s[1..])
  }

  lemma {:induction false} SumAppend(a: seq<int>, b: seq<int>)
    ensures Sum(a + b) == Sum(a) + Sum(b)
  {
    if a == [] {
      assert a + b == b;
    } else {
      assert (a + b)[1..] == a[1..] + b;
      SumAppend(a[1..], b);
    }
  }

  lemma {:induction false} SumUpdate(f: seq<nat>, i: nat, x: nat)
    requires i < |f|
    ensures Sum(f[i := x]) + f[i] == Sum(f) + x
  {
    if i > 0 {
      assert f[i := x][1..] == f[1..][i - 1 := x];
      SumUpdate(f[1..], i - 1, x);
    } else {
      assert f[i := x][1..] == f[1..];
    }
  }

  lemma SumOfOne(x: int)
    ensures Sum([x]) == x
  {
    assert [x][1..] == [];
  }

  lemma {:induction false} SumRepeat(x: int, n: nat)
    ensures Sum(Copies(x, n)) == n * x
  {
    if n > 0 {
      assert Copies(x, n)[1..] == Copies(x, n - 1);
      SumRepeat(x, n - 1);
      Division.Distribute(x, n - 1);
    }
  }

  /** `more` numbers that are one larger than the `fewer` others. */
  lemma SumTwoKinds(each: int, more: nat, fewer: nat)
    ensures Sum(Copies(each + 1, more) + Copies(each, fewer)) == (more + fewer) * each + more
  {
    hide Sum;
    SumAppend(Copies(each + 1, more), Copies(each, fewer));
    SumRepeat(each + 1, more);
    SumRepeat(each, fewer);
    Division.Regroup(each, more, fewer);
  }

  /** The sum of what `size` says of the elements. */
  function TotalBy<X>(s: seq<X>, size: X -> nat): nat { Sum(Sizes(s, size)) }

  function Sizes<X>(s: seq<X>, size: X -> nat): (sizes: seq<int>)
    ensures |sizes| == |s| && forall i :: 0 <= i < |s| ==> sizes[i] == size(s[i])
  {
    seq(|s|, i requires 0 <= i < |s| => size(s[i]))
  }

  lemma TotalByAppend<X>(a: seq<X>, b: seq<X>, size: X -> nat)
    ensures TotalBy(a + b, size) == TotalBy(a, size) + TotalBy(b, size)
  {
    assert Sizes(a + b, size) == Sizes(a, size) + Sizes(b, size);
    SumAppend(Sizes(a, size), Sizes(b, size));
  }

  lemma TotalByOne<X>(x: X, size: X -> nat)
    ensures TotalBy([x], size) == size(x) && TotalBy([], size) == 0
  {
    assert Sizes([x], size) == [size(x) as int] && Sizes([], size) == [];
    SumOfOne(size(x));
  }

  predicate Distinct<X(==)>(s: seq<X>) { forall i, j :: 0 <= i < j < |s| ==> s[i] != s[j] }

  lemma SubsetSize<X>(s: set<X>, t: set<X>)
    requires s <= t
    ensures |s| <= |t|
  {
    assert t == s + (t - s);
  }

  function Copies<X>(x: X, n: nat): (s: seq<X>)
    ensures |s| == n && forall i :: 0 <= i < n ==> s[i] == x
  {
    seq(n, _ => x)
  }
}
