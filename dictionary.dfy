/**
 * A plain JavaScript object used as a dictionary (`obj[k] = v`, `obj[k] || 0`,
 * `Object.entries(obj)`): a sequence of key/value pairs in insertion order.
 * Assigning to a key that is already present replaces its value in place;
 * a new key is appended.
 */
module Dictionary {
  import opened Wrappers

  type Dict<K, V> = seq<(K, V)>

  /** No key occurs twice. */
  ghost predicate DistinctKeys<K, V>(d: Dict<K, V>) {
    forall i, j | 0 <= i < j < |d| :: d[i].0 != d[j].0
  }

  /** `k` is one of the keys. */
  predicate HasKey<K(==), V>(d: Dict<K, V>, k: K) {
    exists i | 0 <= i < |d| :: d[i].0 == k
  }

  /** `obj[k]`: the value stored under `k`, or `None` for `undefined`. */
  function Get<K(==), V>(d: Dict<K, V>, k: K): (r: Option<V>)
    ensures r.None? <==> !HasKey(d, k)
    ensures r.Some? ==> (k, r.value) in d
  {
    if d == [] then None
    else if d[0].0 == k then Some(d[0].1)
    else
      var r := Get(d[1..], k);
      assert HasKey(d, k) <==> HasKey(d[1..], k) by {
        if HasKey(d, k) {
          var i :| 0 <= i < |d| && d[i].0 == k;
          assert d[1..][i - 1].0 == k;
        }
        if HasKey(d[1..], k) {
          var i :| 0 <= i < |d[1..]| && d[1..][i].0 == k;
          assert d[i + 1].0 == k;
        }
      }
      r
  }

  /** A key of a non-empty dictionary is its first key or a key of the rest. */
  lemma HasKeyUncons<K, V>(d: Dict<K, V>, k: K)
    requires d != []
    ensures HasKey(d, k) <==> d[0].0 == k || HasKey(d[1..], k)
  {
    if HasKey(d, k) && d[0].0 != k {
      var i :| 0 <= i < |d| && d[i].0 == k;
      assert d[1..][i - 1].0 == k;
    }
    if HasKey(d[1..], k) {
      var i :| 0 <= i < |d[1..]| && d[1..][i].0 == k;
      assert d[i + 1].0 == k;
    }
  }

  /** `obj[k] = v`. */
  function Put<K(==), V>(d: Dict<K, V>, k: K, v: V): Dict<K, V> {
    if d == [] then [(k, v)]
    else if d[0].0 == k then [(k, v)] + d[1..]
    else [d[0]] + Put(d[1..], k, v)
  }

  /** After `obj[k] = v`, `obj[k]` is `v` and every other key reads as before. */
  lemma {:induction false} GetPut<K, V>(d: Dict<K, V>, k: K, v: V, k': K)
    ensures Get(Put(d, k, v), k') == if k' == k then Some(v) else Get(d, k')
  {
    if d != [] && d[0].0 != k {
      assert Put(d, k, v)[1..] == Put(d[1..], k, v);
      GetPut(d[1..], k, v, k');
    }
  }

  /** `obj[k] = v` adds `k` to the keys, and no other key. */
  lemma {:induction false} HasKeyPut<K, V>(d: Dict<K, V>, k: K, v: V, k': K)
    ensures HasKey(Put(d, k, v), k') <==> HasKey(d, k') || k' == k
    ensures |Put(d, k, v)| == if HasKey(d, k) then |d| else |d| + 1
  {
    var r := Put(d, k, v);
    if d != [] {
      HasKeyUncons(d, k');
      HasKeyUncons(d, k);
      HasKeyUncons(r, k');
      if d[0].0 == k {
        assert r[1..] == d[1..];
      } else {
        assert r[1..] == Put(d[1..], k, v);
        HasKeyPut(d[1..], k, v, k');
      }
    } else {
      assert r[0].0 == k;
    }
  }

  /** `obj[k] = v` keeps the keys distinct. */
  lemma {:induction false} DistinctKeysPut<K, V>(d: Dict<K, V>, k: K, v: V)
    requires DistinctKeys(d)
    ensures DistinctKeys(Put(d, k, v))
  {
    if d != [] {
      var r := Put(d, k, v);
      var rest := r[1..];
      assert DistinctKeys(d[1..]);
      assert !HasKey(d[1..], d[0].0) by {
        forall i | 0 <= i < |d[1..]| ensures d[1..][i].0 != d[0].0 {
          assert d[1..][i] == d[i + 1];
        }
      }
      if d[0].0 == k {
        assert rest == d[1..];
      } else {
        assert rest == Put(d[1..], k, v);
        DistinctKeysPut(d[1..], k, v);
        HasKeyPut(d[1..], k, v, d[0].0);
      }
      assert r[0].0 == d[0].0;
      assert !HasKey(rest, r[0].0);
      forall i, j | 0 <= i < j < |r| ensures r[i].0 != r[j].0 {
        if i == 0 {
          assert r[j] == rest[j - 1];
        } else {
          assert r[i] == rest[i - 1] && r[j] == rest[j - 1];
        }
      }
    }
  }

  /** `obj[k] || 0` for a numeric dictionary. */
  function GetOrZero<K(==)>(d: Dict<K, real>, k: K): real {
    Get(d, k).GetOr(0.0)
  }

  /** The sum of all values, `Object.values(obj)` added up. */
  function SumValues<K>(d: Dict<K, real>): real {
    if d == [] then 0.0 else d[0].1 + SumValues(d[1..])
  }

  /** `obj[k] = v` replaces the old value of `k` (0 when absent) in the sum of all values. */
  lemma {:induction false} SumValuesPut<K(!new)>(d: Dict<K, real>, k: K, v: real)
    ensures SumValues(Put(d, k, v)) == SumValues(d) - GetOrZero(d, k) + v
  {
    if d == [] {
    } else if d[0].0 == k {
      assert Put(d, k, v)[1..] == d[1..];
    } else {
      var rest := Put(d[1..], k, v);
      assert Put(d, k, v) == [d[0]] + rest;
      assert Put(d, k, v)[1..] == rest;
      SumValuesPut(d[1..], k, v);
    }
  }

  /** `obj[k] = (obj[k] || 0) + x`. */
  function Accumulate<K(==)>(d: Dict<K, real>, k: K, x: real): Dict<K, real> {
    Put(d, k, GetOrZero(d, k) + x)
  }

  /** Accumulating `x` raises the sum of all values by exactly `x`. */
  lemma SumValuesAccumulate<K(!new)>(d: Dict<K, real>, k: K, x: real)
    ensures SumValues(Accumulate(d, k, x)) == SumValues(d) + x
  {
    var prev := GetOrZero(d, k);
    SumValuesPut(d, k, prev + x);
    assert SumValues(d) - prev + (prev + x) == SumValues(d) + x;
  }

  /**
   * `s.forEach(x => obj[key(x)] = (obj[key(x)] || 0) + amount(x))` from an
   * empty object: per-key totals, keys in first-seen order.
   */
  function SumBy<T, K(==)>(s: seq<T>, key: T -> K, amount: T -> real): Dict<K, real> {
    if s == [] then []
    else
      var last := s[|s| - 1];
      Accumulate(SumBy(s[..|s| - 1], key, amount), key(last), amount(last))
  }

  /** The sum of `amount` over `s`. */
  function Total<T>(s: seq<T>, amount: T -> real): real {
    if s == [] then 0.0 else amount(s[0]) + Total(s[1..], amount)
  }

  /** The sum of `amount` over the elements of `s` whose key is `k`. */
  function TotalWhere<T, K(==)>(s: seq<T>, key: T -> K, amount: T -> real, k: K): real {
    if s == [] then 0.0
    else (if key(s[0]) == k then amount(s[0]) else 0.0) + TotalWhere(s[1..], key, amount, k)
  }

  /** Both sums, extended by one element at the back. */
  lemma {:induction false} TotalSnoc<T, K>(s: seq<T>, x: T, key: T -> K, amount: T -> real, k: K)
    ensures Total(s + [x], amount) == Total(s, amount) + amount(x)
    ensures TotalWhere(s + [x], key, amount, k) == TotalWhere(s, key, amount, k) + if key(x) == k then amount(x) else 0.0
  {
    if s == [] {
      assert [] + [x] == [x];
      assert [x][1..] == [];
    } else {
      assert (s + [x])[1..] == s[1..] + [x];
      TotalSnoc(s[1..], x, key, amount, k);
    }
  }

  /** Every element adds to exactly one key, so the totals add up to the whole sum. */
  lemma {:induction false} SumByTotal<T, K(!new)>(s: seq<T>, key: T -> K, amount: T -> real)
    ensures SumValues(SumBy(s, key, amount)) == Total(s, amount)
  {
    if s != [] {
      var init := s[..|s| - 1];
      var last := s[|s| - 1];
      SumByTotal(init, key, amount);
      SumValuesAccumulate(SumBy(init, key, amount), key(last), amount(last));
      TotalSnoc(init, last, key, amount, key(last));
      assert init + [last] == s;
    }
  }

  /** The entry of `k` holds the sum over the elements whose key is `k`. */
  lemma {:induction false} SumByGet<T, K(!new)>(s: seq<T>, key: T -> K, amount: T -> real, k: K)
    ensures GetOrZero(SumBy(s, key, amount), k) == TotalWhere(s, key, amount, k)
  {
    if s != [] {
      var init := s[..|s| - 1];
      var last := s[|s| - 1];
      var d := SumBy(init, key, amount);
      var v := GetOrZero(d, key(last)) + amount(last);
      assert SumBy(s, key, amount) == Put(d, key(last), v);
      SumByGet(init, key, amount, k);
      GetPut(d, key(last), v, k);
      assert init + [last] == s;
      TotalSnoc(init, last, key, amount, k);
    }
  }

  /** A key appears exactly when some element carries it, and only once. */
  lemma {:induction false} SumByKeys<T, K(!new)>(s: seq<T>, key: T -> K, amount: T -> real, k: K)
    ensures HasKey(SumBy(s, key, amount), k) <==> exists i | 0 <= i < |s| :: key(s[i]) == k
    ensures DistinctKeys(SumBy(s, key, amount))
  {
    if s != [] {
      var init := s[..|s| - 1];
      var last := s[|s| - 1];
      var d := SumBy(init, key, amount);
      var v := GetOrZero(d, key(last)) + amount(last);
      SumByKeys(init, key, amount, k);
      HasKeyPut(d, key(last), v, k);
      DistinctKeysPut(d, key(last), v);
      if HasKey(SumBy(s, key, amount), k) && key(last) != k {
        var i :| 0 <= i < |init| && key(init[i]) == k;
        assert s[i] == init[i];
      }
      if exists i | 0 <= i < |s| :: key(s[i]) == k {
        var i :| 0 <= i < |s| && key(s[i]) == k;
        if i < |init| {
          assert init[i] == s[i];
        }
      }
    }
  }
}
