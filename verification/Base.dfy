/** Small shared vocabulary: optional values, sealed records, and the ordered view of a finite set of integers. */
module Base {
  datatype Option<+T> = None | Some(value: T)

  /** `a or b` on optional values: the first one that is present wins. */
  function Or<T>(a: Option<T>, b: Option<T>): Option<T> {
    if a.Some? then a else b
  }

  /** A digest field as an injective seal of the rest of the record. */
  datatype Seal<M> = Sha(of: M)
  datatype Sealed<M> = Sealed(material: M, digest: Seal<M>)

  function SealUp<M>(m: M): Sealed<M> { Sealed(m, Sha(m)) }

  lemma Inhabited(s: set<int>)
    requires s != {}
    ensures exists m :: m in s
  {
    assert (forall m :: m !in s) ==> s == {};
  }

  lemma {:induction false} MinimumExists(s: set<int>) returns (m: int)
    requires s != {}
    ensures m in s && forall x :: x in s ==> m <= x
    decreases |s|
  {
    Inhabited(s);
    m :| m in s;
    var rest := s - {m};
    if rest != {} {
      var k := MinimumExists(rest);
      if k < m { m := k; }
      forall x | x in s ensures m <= x {
        if x !in rest { assert x == m || k < x; }
      }
    } else {
      assert forall x :: x in s ==> x == m || x in rest;
    }
  }

  function Minimum(s: set<int>): (m: int)
    requires s != {}
    ensures m in s && forall x :: x in s ==> m <= x
  {
    assert exists m :: m in s && forall x :: x in s ==> m <= x by { var m := MinimumExists(s); }
    var m :| m in s && forall x :: x in s ==> m <= x;
    m
  }

  predicate Increasing(r: seq<int>) { forall i, j :: 0 <= i < j < |r| ==> r[i] < r[j] }

  predicate Lists(r: seq<int>, s: set<int>) {
    |r| == |s| && (forall x :: x in r ==> x in s) && (forall x :: x in s ==> x in r)
  }

  lemma Prepend(m: int, r: seq<int>, s: set<int>)
    requires m in s && (forall x :: x in s ==> m <= x)
    requires Lists(r, s - {m}) && Increasing(r)
    ensures Lists([m] + r, s) && Increasing([m] + r)
  {
    var q := [m] + r;
    forall i, j | 0 <= i < j < |q| ensures q[i] < q[j] {
      assert r[j - 1] in r;
      if i > 0 { assert q[i] == r[i - 1]; }
    }
    forall x | x in s ensures x in q {
      if x != m { assert x in r; }
    }
  }

  lemma {:induction false} SortedExists(s: set<int>) returns (r: seq<int>)
    ensures Lists(r, s) && Increasing(r)
    decreases |s|
  {
    r := [];
    if s != {} {
      var m := Minimum(s);
      var rest := SortedExists(s - {m});
      Prepend(m, rest, s);
      r := [m] + rest;
    }
  }

  lemma FirstIsLeast(a: seq<int>, s: set<int>)
    requires a != [] && Lists(a, s) && Increasing(a)
    ensures a[0] in s && forall x :: x in s ==> a[0] <= x
  {
    assert a[0] in a;
    forall x | x in s ensures a[0] <= x {
      var i :| 0 <= i < |a| && a[i] == x;
      if i > 0 { assert a[0] < a[i]; }
    }
  }

  /** There is only one increasing list of a set: the first elements agree, and so do the rest. */
  lemma {:induction false} SortedUnique(a: seq<int>, b: seq<int>, s: set<int>)
    requires Lists(a, s) && Increasing(a) && Lists(b, s) && Increasing(b)
    ensures a == b
  {
    if a != [] {
      FirstIsLeast(a, s);
      FirstIsLeast(b, s);
      ListsTail(a, s);
      ListsTail(b, s);
      SortedUnique(a[1..], b[1..], s - {a[0]});
      assert a == [a[0]] + a[1..] && b == [b[0]] + b[1..];
    }
  }

  lemma ListsTail(a: seq<int>, s: set<int>)
    requires a != [] && Lists(a, s) && Increasing(a)
    ensures Lists(a[1..], s - {a[0]}) && Increasing(a[1..])
  {
    assert a[0] in a;
    forall x | x in a[1..] ensures x in s - {a[0]} {
      var i :| 0 <= i < |a| - 1 && a[1..][i] == x;
      assert a[i + 1] in a && a[0] < a[i + 1];
    }
    forall x | x in s - {a[0]} ensures x in a[1..] {
      var i :| 0 <= i < |a| && a[i] == x;
      assert a[1..][i - 1] == x;
    }
  }

  /** The elements of a finite set in increasing order. */
  function Sorted(s: set<int>): (r: seq<int>)
    ensures Lists(r, s) && Increasing(r)
  {
    assert exists r: seq<int> :: Lists(r, s) && Increasing(r) by { var r := SortedExists(s); }
    assert forall a: seq<int>, b: seq<int> ::
      Lists(a, s) && Increasing(a) && Lists(b, s) && Increasing(b) ==> a == b
    by {
      forall a: seq<int>, b: seq<int> | Lists(a, s) && Increasing(a) && Lists(b, s) && Increasing(b) ensures a == b {
        SortedUnique(a, b, s);
      }
    }
    var r: seq<int> :| Lists(r, s) && Increasing(r);
    r
  }

  lemma IncreasingTake(r: seq<int>, n: nat)
    requires Increasing(r) && n < |r|
    ensures r[n] !in r[..n] && r[..n + 1] == r[..n] + [r[n]] && r[n] in r
  {}
}
