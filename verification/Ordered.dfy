/** Iterating over a `std::map` with integer keys: ascending key order. */
module Ordered {
  predicate IsLeast(x: int, s: set<int>) {
    x in s && forall y :: y in s ==> x <= y
  }

  lemma Member<T>(s: set<T>) returns (x: T)
    requires s != {}
    ensures x in s
  {
    x :| x in s;
  }

  lemma {:induction false} LeastExists(s: set<int>) returns (x: int)
    requires s != {}
    ensures IsLeast(x, s)
    decreases s
  {
    var any := Member(s);
    var rest := s - {any};
    x := any;
    if rest != {} {
      var least := LeastExists(rest);
      if least < any {
        x := least;
      }
    }
    assert forall y :: y in s ==> y == any || y in rest;
  }

  ghost function Least(s: set<int>): (x: int)
    requires s != {}
    ensures IsLeast(x, s)
  {
    assert exists x :: IsLeast(x, s) by {
      var x := LeastExists(s);
    }
    var x :| IsLeast(x, s);
    x
  }

  /** The values of a map in the order its iterator visits them. */
  ghost function Values<T>(m: map<int, T>): (vs: seq<T>)
    ensures |vs| == |m|
  {
    if m == map[] then []
    else
      var k := Least(m.Keys);
      [m[k]] + Values(m - {k})
  }

  /** Where the iterator stands when `m` is what it has not visited yet. */
  method Begin<T>(m: map<int, T>) returns (k: int)
    requires m != map[]
    ensures k in m && k == Least(m.Keys)
  {
    ghost var least := LeastExists(m.Keys);
    k :| k in m.Keys && IsLeast(k, m.Keys);
    LeastUnique(k, m.Keys);
  }

  lemma LeastUnique(x: int, s: set<int>)
    requires IsLeast(x, s)
    ensures x == Least(s)
  {
    assert Least(s) in s;
  }

  /** Every value visited sits under some key. */
  lemma {:induction false} ValueOrigin<T>(m: map<int, T>, i: nat) returns (k: int)
    requires i < |Values(m)|
    ensures k in m && m[k] == Values(m)[i]
    decreases |m|
  {
    k := Least(m.Keys);
    if i > 0 {
      k := ValueOrigin(m - {k}, i - 1);
    }
  }

  /** Every key is visited, and different keys at different times. */
  lemma {:induction false} VisitedAt<T>(m: map<int, T>, k: int) returns (i: nat)
    requires k in m
    ensures i < |Values(m)| && Values(m)[i] == m[k]
    decreases |m|
  {
    var key := Least(m.Keys);
    if k == key {
      i := 0;
    } else {
      i := VisitedAt(m - {key}, k);
      i := i + 1;
    }
  }

  lemma {:induction false} VisitedApart<T>(m: map<int, T>, j: int, k: int) returns (p: nat, q: nat)
    requires j in m && k in m && j != k
    ensures p < |Values(m)| && q < |Values(m)| && p != q && Values(m)[p] == m[j] && Values(m)[q] == m[k]
    decreases |m|
  {
    var key := Least(m.Keys);
    if j == key {
      p := 0;
      q := VisitedAt(m - {key}, k);
      q := q + 1;
    } else if k == key {
      p := VisitedAt(m - {key}, j);
      p, q := p + 1, 0;
    } else {
      p, q := VisitedApart(m - {key}, j, k);
      p, q := p + 1, q + 1;
    }
  }

  /** A map with the keys `lo`, ..., `hi - 1` is visited by index. */
  lemma {:induction false} RangeValues<T>(m: map<int, T>, lo: int, hi: int)
    requires lo <= hi && forall k :: k in m <==> lo <= k < hi
    ensures |Values(m)| == hi - lo && forall i :: 0 <= i < hi - lo ==> Values(m)[i] == m[lo + i]
    decreases hi - lo
  {
    if lo == hi {
      assert m == map[];
    } else {
      assert lo in m;
      LeastUnique(lo, m.Keys);
      RangeValues(m - {lo}, lo + 1, hi);
    }
  }

  /** A sequence as a map from 0, 1, ... to its elements. */
  function Numbered<T>(xs: seq<T>): map<int, T> {
    if xs == [] then map[] else Numbered(xs[..|xs| - 1])[|xs| - 1 := xs[|xs| - 1]]
  }

  lemma {:induction false} NumberedAt<T>(xs: seq<T>)
    ensures forall i :: i in Numbered(xs) <==> 0 <= i < |xs|
    ensures forall i :: 0 <= i < |xs| ==> Numbered(xs)[i] == xs[i]
    ensures |Numbered(xs)| == |xs|
  {
    if xs != [] {
      NumberedAt(xs[..|xs| - 1]);
    }
  }

  lemma NumberedSnoc<T>(xs: seq<T>, x: T)
    ensures Numbered(xs + [x]) == Numbered(xs)[|xs| := x]
  {
    assert (xs + [x])[..|xs|] == xs;
  }

  /** A numbered map is visited in sequence order. */
  lemma NumberedValues<T>(xs: seq<T>)
    ensures Values(Numbered(xs)) == xs
  {
    NumberedAt(xs);
    RangeValues(Numbered(xs), 0, |xs|);
  }

  function Flatten<T>(lists: seq<seq<T>>): seq<T> {
    if lists == [] then [] else lists[0] + Flatten(lists[1..])
  }

  lemma {:induction false} FlattenSnoc<T>(lists: seq<seq<T>>, last: seq<T>)
    ensures Flatten(lists + [last]) == Flatten(lists) + last
  {
    if lists == [] {
      assert Flatten([last]) == last + Flatten([]);
    } else {
      assert (lists + [last])[1..] == lists[1..] + [last];
      FlattenSnoc(lists[1..], last);
      assert lists[0] + (Flatten(lists[1..]) + last) == lists[0] + Flatten(lists[1..]) + last;
    }
  }
}
