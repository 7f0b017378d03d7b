/** Counting the entries of a finite map that satisfy a predicate: the meaning of the
    server's statistics counters (current-jobs-ready, current-waiting, ...). */
module Counting {

  ghost function Matching<K(!new), V(!new)>(m: map<K, V>, p: V -> bool): set<K> {
    set k | k in m && p(m[k])
  }

  ghost function Count<K(!new), V(!new)>(m: map<K, V>, p: V -> bool): nat {
    |Matching(m, p)|
  }

  lemma CountPut<K(!new), V(!new)>(m: map<K, V>, k: K, v: V, p: V -> bool)
    requires k !in m
    ensures Count(m[k := v], p) == Count(m, p) + (if p(v) then 1 else 0)
  {
    assert Matching(m[k := v], p) == if p(v) then Matching(m, p) + {k} else Matching(m, p);
  }

  lemma CountDrop<K(!new), V(!new)>(m: map<K, V>, k: K, p: V -> bool)
    requires k in m
    ensures Count(m, p) == Count(m - {k}, p) + (if p(m[k]) then 1 else 0)
  {
    assert m == (m - {k})[k := m[k]];
    CountPut(m - {k}, k, m[k], p);
  }

  /** Overwriting one entry moves the count by the difference between the two entries. */
  lemma CountUpdate<K(!new), V(!new)>(m: map<K, V>, k: K, v: V, p: V -> bool)
    requires k in m
    ensures Count(m[k := v], p) == Count(m, p) - (if p(m[k]) then 1 else 0) + (if p(v) then 1 else 0)
  {
    assert m[k := v] == (m - {k})[k := v];
    CountDrop(m, k, p);
    CountPut(m - {k}, k, v, p);
  }

  lemma CountSame<K(!new), V(!new)>(m: map<K, V>, n: map<K, V>, p: V -> bool)
    requires m.Keys == n.Keys
    requires forall k :: k in m && k in n ==> p(m[k]) == p(n[k])
    ensures Count(m, p) == Count(n, p)
  {
    assert Matching(m, p) == Matching(n, p);
  }
}
