/** Helpers over Dafny's built-in collections. A java.util.HashMap has no
    specified iteration order; wherever the service walks over a map's
    entries, this model walks over its keys in ascending order, and the
    properties that matter (sums, key sets, multisets of values) are proved
    not to depend on that choice. */
module Collections {

  lemma HasElement(s: set<int>)
    requires s != {}
    ensures exists y :: y in s
  {
    if forall y :: y !in s {
      assert false;
    }
  }

  lemma {:induction false} MinExists(s: set<int>)
    requires s != {}
    ensures exists x :: x in s && forall y :: y in s ==> x <= y
  {
    HasElement(s);
    var y :| y in s;
    if s == {y} {
      assert forall z :: z in s ==> y <= z;
    } else {
      var rest := s - {y};
      MinExists(rest);
      var m' :| m' in rest && forall z :: z in rest ==> m' <= z;
      var m := if y < m' then y else m';
      forall z | z in s
        ensures m <= z
      {
        if z != y {
          assert z in rest;
        }
      }
      assert m in s;
    }
  }

  /** The least element of a non-empty finite set of integers. */
  function SetMin(s: set<int>): (m: int)
    requires s != {}
    ensures m in s && forall y :: y in s ==> m <= y
  {
    MinExists(s);
    var m :| m in s && forall y :: y in s ==> m <= y;
    m
  }

  predicate StrictlyIncreasing(xs: seq<int>)
  {
    forall i, j :: 0 <= i < j < |xs| ==> xs[i] < xs[j]
  }

  /** The elements of s in ascending order. */
  function Sorted(s: set<int>): seq<int>
    decreases |s|
  {
    if s == {} then []
    else
      var m := SetMin(s);
      [m] + Sorted(s - {m})
  }

  /** Sorted lists every element of s exactly once, in ascending order. */
  lemma SortedSpec(s: set<int>)
    ensures |Sorted(s)| == |s|
    ensures forall i :: 0 <= i < |Sorted(s)| ==> Sorted(s)[i] in s
    ensures forall x :: x in s ==> x in Sorted(s)
    ensures StrictlyIncreasing(Sorted(s))
  {
    SortedLength(s);
    SortedElements(s);
    SortedIncreasing(s);
  }

  lemma {:induction false} SortedLength(s: set<int>)
    ensures |Sorted(s)| == |s|
    decreases |s|
  {
    if s != {} {
      SortedLength(s - {SetMin(s)});
    }
  }

  lemma {:induction false} SortedElements(s: set<int>)
    ensures forall x :: x in Sorted(s) <==> x in s
    decreases |s|
  {
    if s != {} {
      var m := SetMin(s);
      SortedElements(s - {m});
      assert Sorted(s) == [m] + Sorted(s - {m});
    }
  }

  lemma {:induction false} SortedIncreasing(s: set<int>)
    ensures StrictlyIncreasing(Sorted(s))
    decreases |s|
  {
    if s != {} {
      var m := SetMin(s);
      var rest := Sorted(s - {m});
      SortedIncreasing(s - {m});
      SortedElements(s - {m});
      var xs := [m] + rest;
      assert Sorted(s) == xs;
      forall i, j | 0 <= i < j < |xs|
        ensures xs[i] < xs[j]
      {
        assert xs[j] == rest[j - 1];
        if i > 0 {
          assert xs[i] == rest[i - 1];
        } else {
          assert rest[j - 1] in rest;
        }
      }
    }
  }

  /** The keys of m in ascending order. */
  function SortedKeys<V>(m: map<int, V>): seq<int>
  {
    Sorted(m.Keys)
  }

  lemma SortedKeysSpec<V>(m: map<int, V>)
    ensures |SortedKeys(m)| == |m|
    ensures forall i :: 0 <= i < |SortedKeys(m)| ==> SortedKeys(m)[i] in m
    ensures forall k :: k in m ==> k in SortedKeys(m)
    ensures StrictlyIncreasing(SortedKeys(m))
  {
    SortedSpec(m.Keys);
  }

  /** The values of m, in ascending order of their keys. */
  function Values<V>(m: map<int, V>): seq<V>
  {
    var ks := SortedKeys(m);
    SortedKeysSpec(m);
    seq(|ks|, i requires 0 <= i < |ks| => m[ks[i]])
  }

  lemma ValuesSpec<V>(m: map<int, V>)
    ensures |Values(m)| == |SortedKeys(m)| == |m|
    ensures forall i :: 0 <= i < |Values(m)| ==> SortedKeys(m)[i] in m && Values(m)[i] == m[SortedKeys(m)[i]]
    ensures forall k :: k in m ==> k in SortedKeys(m)
    ensures StrictlyIncreasing(SortedKeys(m))
  {
    SortedKeysSpec(m);
  }

  /** Apply f to every element: Java's stream().map(f).toList(). */
  function MapSeq<T, U>(f: T -> U, xs: seq<T>): seq<U>
  {
    seq(|xs|, i requires 0 <= i < |xs| => f(xs[i]))
  }

  /** Mapping commutes with reordering. */
  lemma {:induction false} MapSeqPermutation<T, U>(f: T -> U, xs: seq<T>, ys: seq<T>)
    requires multiset(xs) == multiset(ys)
    ensures multiset(MapSeq(f, xs)) == multiset(MapSeq(f, ys))
  {
    if |xs| == 0 {
      assert |ys| == |multiset(ys)| == 0;
      assert MapSeq(f, ys) == [];
    } else {
      var n := |xs|;
      var x := xs[n - 1];
      var init := xs[..n - 1];
      SnocMultiset(xs);
      var j :| 0 <= j < |ys| && ys[j] == x;
      RemoveAt(ys, j);
      MapSeqPermutation(f, init, ys[..j] + ys[j + 1..]);
      MapSeqRemove(f, ys, j);
      MapSeqSnoc(f, xs);
    }
  }

  lemma SnocMultiset<T>(xs: seq<T>)
    requires |xs| > 0
    ensures xs[|xs| - 1] in multiset(xs)
    ensures multiset(xs[..|xs| - 1]) == multiset(xs) - multiset{xs[|xs| - 1]}
  {
    assert xs == xs[..|xs| - 1] + [xs[|xs| - 1]];
  }

  lemma MapSeqSnoc<T, U>(f: T -> U, xs: seq<T>)
    requires |xs| > 0
    ensures multiset(MapSeq(f, xs)) == multiset(MapSeq(f, xs[..|xs| - 1])) + multiset{f(xs[|xs| - 1])}
  {
    assert MapSeq(f, xs) == MapSeq(f, xs[..|xs| - 1]) + [f(xs[|xs| - 1])];
  }

  lemma RemoveAt<T>(ys: seq<T>, j: nat)
    requires j < |ys|
    ensures multiset(ys[..j] + ys[j + 1..]) == multiset(ys) - multiset{ys[j]}
  {
    assert ys == ys[..j] + [ys[j]] + ys[j + 1..];
  }

  lemma MapSeqRemove<T, U>(f: T -> U, ys: seq<T>, j: nat)
    requires j < |ys|
    ensures multiset(MapSeq(f, ys)) == multiset(MapSeq(f, ys[..j] + ys[j + 1..])) + multiset{f(ys[j])}
  {
    var fy := MapSeq(f, ys);
    var rest := ys[..j] + ys[j + 1..];
    assert forall i :: 0 <= i < |rest| ==> rest[i] == if i < j then ys[i] else ys[i + 1];
    assert MapSeq(f, rest) == fy[..j] + fy[j + 1..];
    assert fy == fy[..j] + [f(ys[j])] + fy[j + 1..];
  }

  /** Two maps with the same keys and the same value under each key are equal. */
  lemma MapsEqual<V>(a: map<int, V>, b: map<int, V>)
    requires a.Keys == b.Keys
    requires forall k :: k in a ==> a[k] == b[k]
    ensures a == b
  {
    forall k | k in b
      ensures k in a && a[k] == b[k]
    {
    }
    forall k | k in a
      ensures k in b
    {
    }
  }
}
