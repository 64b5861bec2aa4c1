/** An ECMAScript `Map<string, V>` as its entries in insertion order: `set`
    on a present key keeps the key's position, `set` on a new key appends,
    `delete` drops the key, and `values()` yields the values in entry order. */
module JsMap {
  import opened Wrappers

  type Entries<V> = seq<(string, V)>

  function Keys<V>(m: Entries<V>): seq<string> {
    if m == [] then [] else [m[0].0] + Keys(m[1..])
  }

  /** `ks` with every occurrence of `k` dropped, the rest in order. */
  function Without(ks: seq<string>, k: string): seq<string> {
    if ks == [] then [] else if ks[0] == k then Without(ks[1..], k) else [ks[0]] + Without(ks[1..], k)
  }

  predicate Has<V>(m: Entries<V>, k: string) {
    exists i :: 0 <= i < |m| && m[i].0 == k
  }

  /** No key occurs twice: what every Map satisfies. */
  predicate Distinct<V>(m: Entries<V>) {
    forall i, j :: 0 <= i < j < |m| ==> m[i].0 != m[j].0
  }

  /** `map.get(k)`. */
  function Get<V>(m: Entries<V>, k: string): (r: Option<V>)
    ensures r.None? <==> !Has(m, k)
    ensures r.Some? ==> exists i :: 0 <= i < |m| && m[i] == (k, r.value)
  {
    if m == [] then None
    else if m[0].0 == k then Some(m[0].1)
    else
      var r := Get(m[1..], k);
      assert forall i :: 0 < i < |m| ==> m[i] == m[1..][i - 1];
      r
  }

  /** `map.set(k, v)`. */
  function Set<V>(m: Entries<V>, k: string, v: V): Entries<V> {
    if m == [] then [(k, v)]
    else if m[0].0 == k then [(k, v)] + m[1..]
    else [m[0]] + Set(m[1..], k, v)
  }

  /** `map.delete(k)`. */
  function Delete<V>(m: Entries<V>, k: string): Entries<V> {
    if m == [] then []
    else if m[0].0 == k then Delete(m[1..], k)
    else [m[0]] + Delete(m[1..], k)
  }

  /** `Array.from(map.values())`. */
  function Values<V>(m: Entries<V>): (vs: seq<V>)
    ensures |vs| == |m|
    ensures forall i :: 0 <= i < |m| ==> vs[i] == m[i].1
  {
    if m == [] then [] else [m[0].1] + Values(m[1..])
  }

  lemma {:induction false} HasFirst<V>(m: Entries<V>, k: string)
    requires m != []
    ensures Has(m, k) <==> m[0].0 == k || Has(m[1..], k)
  {
    if Has(m[1..], k) {
      var i :| 0 <= i < |m[1..]| && m[1..][i].0 == k;
      assert m[i + 1].0 == k;
    }
    if Has(m, k) && m[0].0 != k {
      var i :| 0 <= i < |m| && m[i].0 == k;
      assert m[1..][i - 1].0 == k;
    }
  }

  /** After `set(k, v)`, `get(k)` is `v` and every other key reads as before. */
  lemma {:induction false} GetSet<V>(m: Entries<V>, k: string, v: V, k': string)
    ensures Get(Set(m, k, v), k') == if k' == k then Some(v) else Get(m, k')
  {
    if m != [] && m[0].0 != k {
      GetSet(m[1..], k, v, k');
      assert Set(m, k, v)[1..] == Set(m[1..], k, v);
    } else if m != [] {
      assert Set(m, k, v)[1..] == m[1..];
    }
  }

  /** `set` on a present key keeps the key order; on a new key it appends. */
  lemma {:induction false} SetKeys<V>(m: Entries<V>, k: string, v: V)
    ensures Has(m, k) ==> Keys(Set(m, k, v)) == Keys(m)
    ensures !Has(m, k) ==> Keys(Set(m, k, v)) == Keys(m) + [k]
  {
    if m != [] {
      HasFirst(m, k);
      if m[0].0 != k {
        SetKeys(m[1..], k, v);
        assert Set(m, k, v)[1..] == Set(m[1..], k, v);
      } else {
        assert Set(m, k, v)[1..] == m[1..];
      }
    }
  }

  /** The keys of `m` are exactly the elements of `Keys(m)`. */
  lemma {:induction false} KeysHas<V>(m: Entries<V>, k: string)
    ensures k in Keys(m) <==> Has(m, k)
  {
    if m != [] {
      HasFirst(m, k);
      KeysHas(m[1..], k);
    }
  }

  lemma {:induction false} SetHas<V>(m: Entries<V>, k: string, v: V, k': string)
    ensures Has(Set(m, k, v), k') <==> k' == k || Has(m, k')
  {
    GetSet(m, k, v, k');
  }

  lemma FirstNotInRest<V>(m: Entries<V>)
    requires Distinct(m) && m != []
    ensures !Has(m[1..], m[0].0)
  {
    forall i | 0 <= i < |m[1..]| ensures m[1..][i].0 != m[0].0 {
      assert m[1..][i] == m[i + 1];
    }
  }

  /** `set` keeps keys distinct. */
  lemma {:induction false} SetDistinct<V>(m: Entries<V>, k: string, v: V)
    requires Distinct(m)
    ensures Distinct(Set(m, k, v))
  {
    if m != [] && m[0].0 != k {
      var rest := Set(m[1..], k, v);
      SetDistinct(m[1..], k, v);
      var r := Set(m, k, v);
      assert r == [m[0]] + rest;
      FirstNotInRest(m);
      SetHas(m[1..], k, v, m[0].0);
      forall j | 0 < j < |r| ensures r[0].0 != r[j].0 {
        assert r[j] == rest[j - 1];
      }
    }
  }

  /** After `delete(k)`, `k` is absent and every other key reads as before. */
  lemma {:induction false} GetDelete<V>(m: Entries<V>, k: string, k': string)
    ensures Get(Delete(m, k), k') == if k' == k then None else Get(m, k')
  {
    if m != [] {
      GetDelete(m[1..], k, k');
      if m[0].0 != k {
        assert Delete(m, k)[1..] == Delete(m[1..], k);
      }
    }
  }

  /** `delete` of an absent key leaves the entries as they were. */
  lemma {:induction false} DeleteAbsent<V>(m: Entries<V>, k: string)
    requires !Has(m, k)
    ensures Delete(m, k) == m
  {
    if m != [] {
      HasFirst(m, k);
      DeleteAbsent(m[1..], k);
    }
  }

  /** `delete` keeps keys distinct. */
  lemma {:induction false} DeleteDistinct<V>(m: Entries<V>, k: string)
    requires Distinct(m)
    ensures Distinct(Delete(m, k))
  {
    if m != [] {
      DeleteDistinct(m[1..], k);
      if m[0].0 != k {
        var rest := Delete(m[1..], k);
        var r := Delete(m, k);
        assert r == [m[0]] + rest;
        FirstNotInRest(m);
        GetDelete(m[1..], k, m[0].0);
        forall j | 0 < j < |r| ensures r[0].0 != r[j].0 {
          assert r[j] == rest[j - 1];
        }
      }
    }
  }

  /** `delete(k)` drops `k` and keeps the other keys in their order. */
  lemma {:induction false} DeleteKeys<V>(m: Entries<V>, k: string)
    ensures Keys(Delete(m, k)) == Without(Keys(m), k)
  {
    if m != [] {
      DeleteKeys(m[1..], k);
      assert Keys(m) == [m[0].0] + Keys(m[1..]);
      assert Keys(m)[1..] == Keys(m[1..]);
      if m[0].0 != k {
        var r := Delete(m, k);
        assert r[0] == m[0] && r[1..] == Delete(m[1..], k);
      }
    }
  }
}
