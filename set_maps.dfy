// The one-to-many maps the Users, Tokens and Ips registries keep: a key
// (user id, token, ip) maps to the set of connections bound to it, and a
// key whose set empties is dropped.

module SetMaps {

  /** The members bound to `k`; nothing for an absent key. */
  function Members<K, V>(m: map<K, set<V>>, k: K): set<V>
  {
    if k in m then m[k] else {}
  }

  /** No key maps to an empty set. */
  ghost predicate NoEmptySets<K, V>(m: map<K, set<V>>)
  {
    forall k :: k in m ==> m[k] != {}
  }

  /** Binds `v` under `k`, creating the set on first use. */
  function WithMember<K, V>(m: map<K, set<V>>, k: K, v: V): (r: map<K, set<V>>)
    ensures r.Keys == m.Keys + {k}
    ensures NoEmptySets(m) ==> NoEmptySets(r)
  {
    m[k := Members(m, k) + {v}]
  }

  /** Unbinds `v` from `k`, dropping the key once its set is empty. */
  function WithoutMember<K, V>(m: map<K, set<V>>, k: K, v: V): (r: map<K, set<V>>)
    ensures r.Keys <= m.Keys
    ensures NoEmptySets(m) ==> NoEmptySets(r)
    ensures k in r <==> Members(m, k) - {v} != {}
  {
    if k !in m then m
    else if m[k] - {v} == {} then m - {k}
    else m[k := m[k] - {v}]
  }

  /** Binding adds exactly `v` under `k` and changes no other key. */
  lemma MembersAfterWith<K, V>(m: map<K, set<V>>, k: K, v: V, j: K)
    ensures Members(WithMember(m, k, v), j) == if j == k then Members(m, k) + {v} else Members(m, j)
  {
  }

  /** Unbinding removes exactly `v` from `k` and changes no other key. */
  lemma MembersAfterWithout<K, V>(m: map<K, set<V>>, k: K, v: V, j: K)
    ensures Members(WithoutMember(m, k, v), j) == if j == k then Members(m, k) - {v} else Members(m, j)
  {
  }

  /**
   * Unbinding undoes a binding of a connection that was not bound there
   * before, provided no set was empty to begin with.
   */
  lemma WithoutUndoesWith<K, V>(m: map<K, set<V>>, k: K, v: V)
    requires NoEmptySets(m)
    requires v !in Members(m, k)
    ensures WithoutMember(WithMember(m, k, v), k, v) == m
  {
    if k in m {
      assert (m[k] + {v}) - {v} == m[k];
    } else {
      assert WithMember(m, k, v)[k] - {v} == {};
    }
  }
}
