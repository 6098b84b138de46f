/** Datatypes shared by every model in this project. */
module Basics {
  datatype Option<+T> = None | Some(value: T) {
    function UnwrapOr(default: T): T {
      match this case None => default case Some(v) => v
    }
  }

  datatype Result<+T, +E> = Ok(value: T) | Err(error: E)
}

/** Counting the values of a map that satisfy a predicate, one update at a time. */
module Counting {
  function Matching<K, V>(m: map<K, V>, p: V -> bool): set<K> {
    set k | k in m && p(m[k])
  }

  function Count<K, V>(m: map<K, V>, p: V -> bool): nat {
    |Matching(m, p)|
  }

  lemma CountDrop<K, V>(m: map<K, V>, k: K, p: V -> bool)
    requires k in m
    ensures Count(m, p) == Count(m - {k}, p) + if p(m[k]) then 1 else 0
  {
    if p(m[k]) {
      assert Matching(m, p) == Matching(m - {k}, p) + {k};
    } else {
      assert Matching(m, p) == Matching(m - {k}, p);
    }
  }

  lemma CountPut<K, V>(m: map<K, V>, k: K, v: V, p: V -> bool)
    ensures Count(m[k := v], p) == Count(m - {k}, p) + if p(v) then 1 else 0
  {
    assert m[k := v] - {k} == m - {k};
    CountDrop(m[k := v], k, p);
  }

  /** Replacing the value of an existing key moves one unit from the old class to the new one. */
  lemma CountReplace<K, V>(m: map<K, V>, k: K, v: V, p: V -> bool)
    requires k in m
    ensures Count(m[k := v], p) + (if p(m[k]) then 1 else 0) == Count(m, p) + if p(v) then 1 else 0
  {
    CountDrop(m, k, p);
    CountPut(m, k, v, p);
  }

  lemma CountAdd<K, V>(m: map<K, V>, k: K, v: V, p: V -> bool)
    requires k !in m
    ensures Count(m[k := v], p) == Count(m, p) + if p(v) then 1 else 0
  {
    assert m - {k} == m;
    CountPut(m, k, v, p);
  }

  lemma {:induction false} SubsetSize<T>(a: set<T>, b: set<T>)
    requires a <= b
    ensures |a| <= |b|
    decreases a
  {
    if a != {} {
      var x :| x in a;
      SubsetSize(a - {x}, b - {x});
    }
  }

  lemma CountAtMost<K, V>(m: map<K, V>, p: V -> bool)
    ensures Count(m, p) <= |m|
  {
    assert Matching(m, p) <= m.Keys;
    SubsetSize(Matching(m, p), m.Keys);
  }

  lemma CountImplies<K, V>(m: map<K, V>, p: V -> bool, q: V -> bool)
    requires forall k :: k in m && p(m[k]) ==> q(m[k])
    ensures Count(m, p) <= Count(m, q)
  {
    SubsetSize(Matching(m, p), Matching(m, q));
  }

  lemma CountPositive<K, V>(m: map<K, V>, k: K, p: V -> bool)
    requires k in m && p(m[k])
    ensures Count(m, p) > 0
  {
    assert k in Matching(m, p);
  }
}

/** The total of a map's values. */
module Totals {
  ghost function Sum<K(!new)>(m: map<K, nat>): nat {
    if m == map[] then 0
    else
      var k :| k in m;
      m[k] + Sum(m - {k})
  }

  lemma {:induction false} SumDrop<K(!new)>(m: map<K, nat>, k: K)
    requires k in m
    ensures Sum(m) == m[k] + Sum(m - {k})
    decreases |m|
  {
    var j :| j in m && Sum(m) == m[j] + Sum(m - {j});
    if j != k {
      assert (m - {j}).Keys == m.Keys - {j};
      assert |m - {j}| == |(m - {j}).Keys| && |m| == |m.Keys|;
      SumDrop(m - {j}, k);
      assert (m - {k}).Keys == m.Keys - {k};
      assert |m - {k}| == |(m - {k}).Keys|;
      SumDrop(m - {k}, j);
      assert m - {j} - {k} == m - {k} - {j};
    }
  }

  lemma SumPut<K(!new)>(m: map<K, nat>, k: K, v: nat)
    ensures Sum(m[k := v]) == Sum(m - {k}) + v
  {
    SumDrop(m[k := v], k);
    assert m[k := v] - {k} == m - {k};
  }
}
