/** Values and facts shared by every part of the model. */
module Basics {

  const U64_MAX: nat := 0xFFFF_FFFF_FFFF_FFFF

  datatype Option<+T> = None | Some(value: T)

  /** How a data track is delivered. */
  datatype Mode = Latest | Lossy | Ordered

  function Max(a: nat, b: nat): nat { if a < b then b else a }

  /** The least member of a set of numbers: what a `BTreeSet<u64>` calls `first`. */
  function Least(s: set<nat>): (m: nat)
    requires s != {}
    ensures m in s && forall x | x in s :: m <= x
  {
    LeastExists(s);
    var m :| m in s && forall x | x in s :: m <= x;
    m
  }

  lemma LeastExists(s: set<nat>)
    requires s != {}
    ensures exists m :: m in s && forall x | x in s :: m <= x
  {
    var m := LeastOf(s);
  }

  lemma {:induction false} LeastOf(s: set<nat>) returns (m: nat)
    requires s != {}
    ensures m in s && forall x | x in s :: m <= x
    decreases |s|
  {
    m :| m in s;
    var rest := s - {m};
    if rest != {} {
      var n := LeastOf(rest);
      assert forall x | x in s :: x == m || x in rest;
      if n < m { m := n; }
    } else {
      assert forall x | x in s :: x == m;
    }
  }

  /** The sum of the weights in a finite map. */
  ghost function Sum<K>(m: map<K, nat>): nat
  {
    if m == map[] then 0
    else
      var k :| k in m;
      m[k] + Sum(m - {k})
  }

  lemma {:induction false} SumRemove<K>(m: map<K, nat>, k: K)
    requires k in m
    ensures Sum(m) == m[k] + Sum(m - {k})
    decreases |m|
  {
    var j :| j in m && Sum(m) == m[j] + Sum(m - {j});
    if j != k {
      SumRemove(m - {j}, k);
      assert (m - {j}) - {k} == (m - {k}) - {j};
      SumRemove(m - {k}, j);
    }
  }

  /** Replacing one weight changes the sum by exactly the difference. */
  lemma SumUpdate<K>(m: map<K, nat>, k: K, v: nat)
    ensures Sum(m[k := v]) + (if k in m then m[k] else 0) == Sum(m) + v
  {
    SumRemove(m[k := v], k);
    assert m[k := v] - {k} == m - {k};
    if k in m {
      SumRemove(m, k);
    } else {
      assert m - {k} == m;
    }
  }

  lemma {:induction false} SumZero<K>(m: map<K, nat>)
    requires forall k | k in m :: m[k] == 0
    ensures Sum(m) == 0
    decreases |m|
  {
    if k :| k in m {
      SumRemove(m, k);
      SumZero(m - {k});
    }
  }

  /** A sum splits along any set of keys. */
  lemma {:induction false} SumSplit<K>(m: map<K, nat>, keys: set<K>)
    ensures Sum(m) == Sum(m - keys) + Sum(map k | k in m && k in keys :: m[k])
    decreases |m|
  {
    var inside := map k | k in m && k in keys :: m[k];
    if k :| k in m {
      var rest := m - {k};
      SumSplit(rest, keys);
      SumRemove(m, k);
      var smaller := map j | j in rest && j in keys :: rest[j];
      if k in keys {
        SumRemove(inside, k);
        assert inside - {k} == smaller;
        assert m - keys == rest - keys;
      } else {
        SumRemove(m - keys, k);
        assert (m - keys) - {k} == rest - keys;
        assert inside == smaller;
      }
    } else {
      assert inside == map[] && m - keys == map[];
    }
  }
}
