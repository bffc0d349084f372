/** Python's insertion-ordered `dict` with string keys: the keys in insertion order and
    the map from keys to values. */
module Dicts {
  datatype Dict<V> = Dict(keys: seq<string>, vals: map<string, V>)

  ghost predicate Valid<V>(d: Dict<V>) {
    && (forall i, j :: 0 <= i < j < |d.keys| ==> d.keys[i] != d.keys[j])
    && (forall k :: k in d.vals <==> k in d.keys)
  }

  function Empty<V>(): (d: Dict<V>)
    ensures Valid(d) && d.keys == [] && d.vals == map[]
  {
    Dict([], map[])
  }

  /** `d[k] = v`: an existing key keeps its place, a new key is appended. */
  function Put<V>(d: Dict<V>, k: string, v: V): (r: Dict<V>)
    ensures r.vals == d.vals[k := v]
    ensures r.keys == if k in d.vals then d.keys else d.keys + [k]
  {
    if k in d.vals then Dict(d.keys, d.vals[k := v]) else Dict(d.keys + [k], d.vals[k := v])
  }

  /** The dictionary laws of `d[k] = v`: `k` now maps to `v`, every other key keeps its
      value, the old keys keep their order at the front, and assigning `k` again only
      replaces the value. */
  lemma PutLaws<V>(d: Dict<V>, k: string, v: V, v2: V)
    requires Valid(d)
    ensures var r := Put(d, k, v);
      && k in r.vals && r.vals[k] == v
      && r.vals.Keys == d.vals.Keys + {k}
      && (forall j :: j in d.vals && j != k ==> r.vals[j] == d.vals[j])
      && d.keys <= r.keys && k in r.keys
      && (k in d.vals <==> |r.keys| == |d.keys|)
      && Put(r, k, v2) == Put(d, k, v2)
  {
  }

  lemma PutValid<V>(d: Dict<V>, k: string, v: V)
    requires Valid(d)
    ensures Valid(Put(d, k, v))
  {
  }

  /** The sum of `f` over the values of `keys`; a key without a value adds nothing. */
  function SumOver<V>(keys: seq<string>, vals: map<string, V>, f: V -> nat): nat
    decreases |keys|
  {
    if keys == [] then 0
    else (if keys[0] in vals then f(vals[keys[0]]) else 0) + SumOver(keys[1..], vals, f)
  }

  lemma {:induction false} SumOverAppend<V>(keys: seq<string>, k: string, vals: map<string, V>, f: V -> nat)
    requires k in vals
    ensures SumOver(keys + [k], vals, f) == SumOver(keys, vals, f) + f(vals[k])
    decreases |keys|
  {
    if keys == [] {
      assert keys + [k] == [k];
    } else {
      assert (keys + [k])[1..] == keys[1..] + [k];
      SumOverAppend(keys[1..], k, vals, f);
    }
  }

  /** Changing the value of one key of a duplicate-free key list changes the sum by the
      difference; changing a key outside the list changes nothing. */
  lemma {:induction false} SumOverUpdate<V>(keys: seq<string>, vals: map<string, V>, k: string, v: V, f: V -> nat)
    requires forall x :: x in keys ==> x in vals
    requires forall i, j :: 0 <= i < j < |keys| ==> keys[i] != keys[j]
    ensures k !in keys ==> SumOver(keys, vals[k := v], f) == SumOver(keys, vals, f)
    ensures k in keys ==> SumOver(keys, vals[k := v], f) + f(vals[k]) == SumOver(keys, vals, f) + f(v)
    decreases |keys|
  {
    if keys != [] {
      assert forall i, j :: 0 <= i < j < |keys[1..]| ==> keys[1..][i] != keys[1..][j] by {
        forall i, j | 0 <= i < j < |keys[1..]| ensures keys[1..][i] != keys[1..][j] {
          assert keys[1..][i] == keys[i + 1] && keys[1..][j] == keys[j + 1];
        }
      }
      SumOverUpdate(keys[1..], vals, k, v, f);
      if keys[0] == k {
        assert k !in keys[1..] by {
          forall j | 0 <= j < |keys[1..]| ensures keys[1..][j] != k {
            assert keys[1..][j] == keys[j + 1];
          }
        }
      }
    }
  }

  /** `d[k] = v` changes the sum by the value it replaces and the value it stores. */
  lemma PutSum<V>(d: Dict<V>, k: string, v: V, f: V -> nat)
    requires Valid(d)
    ensures SumOver(Put(d, k, v).keys, Put(d, k, v).vals, f) + (if k in d.vals then f(d.vals[k]) else 0)
      == SumOver(d.keys, d.vals, f) + f(v)
  {
    SumOverUpdate(d.keys, d.vals, k, v, f);
    if k !in d.vals {
      SumOverAppend(d.keys, k, d.vals[k := v], f);
    }
  }
}
