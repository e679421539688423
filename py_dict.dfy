/**
 * Python dictionaries with string keys, as association lists in insertion
 * order: lookup, assignment (`d[k] = v`, which keeps an existing key in its
 * place and appends a new one) and deletion (`del d[k]`).
 */
module PyDict {
  import opened Optional

  type Dict<V> = seq<(string, V)>

  function Keys<V>(d: Dict<V>): set<string>
  {
    set i | 0 <= i < |d| :: d[i].0
  }

  lemma KeysCons<V>(e: (string, V), t: Dict<V>)
    ensures Keys([e] + t) == {e.0} + Keys(t)
  {
    var d := [e] + t;
    forall k | k in Keys(d)
      ensures k in {e.0} + Keys(t)
    {
      var i :| 0 <= i < |d| && d[i].0 == k;
      if i > 0 {
        assert t[i - 1].0 == k;
      }
    }
    forall k | k in Keys(t)
      ensures k in Keys(d)
    {
      var i :| 0 <= i < |t| && t[i].0 == k;
      assert d[i + 1].0 == k;
    }
    assert d[0].0 == e.0;
  }

  /** A dictionary never holds a key twice. */
  predicate DistinctKeys<V>(d: Dict<V>)
  {
    forall i, j :: 0 <= i < j < |d| ==> d[i].0 != d[j].0
  }

  /** `d.get(key)`. */
  function Lookup<V>(d: Dict<V>, key: string): (r: Option<V>)
    ensures r.Some? <==> key in Keys(d)
  {
    if d == [] then None
    else if d[0].0 == key then Some(d[0].1)
    else
      var r := Lookup(d[1..], key);
      assert forall i :: 0 < i < |d| ==> d[i] == d[1..][i - 1];
      assert Keys(d) == {d[0].0} + Keys(d[1..]);
      r
  }

  /** What lookup finds is the value of an entry with that key. */
  lemma {:induction false} LookupIsEntry<V>(d: Dict<V>, key: string)
    requires key in Keys(d)
    ensures exists i :: 0 <= i < |d| && d[i] == (key, Lookup(d, key).value)
  {
    if d[0].0 != key {
      assert Keys(d) == {d[0].0} + Keys(d[1..]) by { KeysCons(d[0], d[1..]); assert d == [d[0]] + d[1..]; }
      LookupIsEntry(d[1..], key);
      var i :| 0 <= i < |d[1..]| && d[1..][i] == (key, Lookup(d, key).value);
      assert d[i + 1] == d[1..][i];
    } else {
      assert d[0] == (key, Lookup(d, key).value);
    }
  }

  /** In a dictionary without repeated keys, the entry at position i is what lookup finds. */
  lemma {:induction false} LookupAt<V>(d: Dict<V>, i: nat)
    requires DistinctKeys(d) && i < |d|
    ensures Lookup(d, d[i].0) == Some(d[i].1)
  {
    if i > 0 {
      assert DistinctKeys(d[1..]);
      LookupAt(d[1..], i - 1);
    }
  }

  /** Lookup finds the first entry with the key. */
  lemma {:induction false} LookupFirst<V>(d: Dict<V>, n: nat)
    requires n < |d| && forall i :: 0 <= i < n ==> d[i].0 != d[n].0
    ensures Lookup(d, d[n].0) == Some(d[n].1)
  {
    if n > 0 {
      LookupFirst(d[1..], n - 1);
    }
  }

  /** `d[key] = value`. */
  function Set<V>(d: Dict<V>, key: string, value: V): (r: Dict<V>)
    ensures Keys(r) == Keys(d) + {key}
    ensures |r| == if key in Keys(d) then |d| else |d| + 1
    ensures forall e :: e in r ==> e in d || e == (key, value)
  {
    if d == [] then
      KeysCons((key, value), d);
      assert [(key, value)] + d == [(key, value)];
      [(key, value)]
    else
      assert d == [d[0]] + d[1..];
      KeysCons(d[0], d[1..]);
      if d[0].0 == key then
        KeysCons((key, value), d[1..]);
        [(key, value)] + d[1..]
      else
        var rest := Set(d[1..], key, value);
        KeysCons(d[0], rest);
        [d[0]] + rest
  }

  /** After `d[key] = value`, looking up key gives value and every other key is untouched. */
  lemma {:induction false} SetLookup<V>(d: Dict<V>, key: string, value: V, k: string)
    ensures Lookup(Set(d, key, value), k) == if k == key then Some(value) else Lookup(d, k)
  {
    if d != [] && d[0].0 != key {
      SetLookup(d[1..], key, value, k);
    }
  }

  /** Assignment never introduces a repeated key. */
  lemma {:induction false} SetDistinct<V>(d: Dict<V>, key: string, value: V)
    requires DistinctKeys(d)
    ensures DistinctKeys(Set(d, key, value))
  {
    if d != [] && d[0].0 != key {
      assert DistinctKeys(d[1..]);
      SetDistinct(d[1..], key, value);
      assert d == [d[0]] + d[1..];
      KeysCons(d[0], d[1..]);
      var rest := Set(d[1..], key, value);
      assert d[0].0 !in Keys(rest);
      assert forall i :: 0 < i < |rest| + 1 ==> ([d[0]] + rest)[i] == rest[i - 1];
    } else if d != [] {
      assert d == [d[0]] + d[1..];
      KeysCons(d[0], d[1..]);
      assert forall i :: 0 < i < |d| ==> Set(d, key, value)[i] == d[i];
    }
  }

  lemma KeysAppend<V>(d: Dict<V>, e: (string, V))
    ensures Keys(d + [e]) == Keys(d) + {e.0}
    ensures DistinctKeys(d + [e]) <==> DistinctKeys(d) && e.0 !in Keys(d)
  {
    var r := d + [e];
    assert forall i :: 0 <= i < |d| ==> r[i] == d[i];
    assert r[|d|] == e;
    forall k | k in Keys(r) ensures k in Keys(d) + {e.0} {
      var i :| 0 <= i < |r| && r[i].0 == k;
      if i < |d| { assert d[i].0 == k; }
    }
  }

  /** A new key goes to the end. */
  lemma {:induction false} SetAbsentAppends<V>(d: Dict<V>, key: string, value: V)
    requires key !in Keys(d)
    ensures Set(d, key, value) == d + [(key, value)]
  {
    if d != [] {
      assert d == [d[0]] + d[1..];
      KeysCons(d[0], d[1..]);
      SetAbsentAppends(d[1..], key, value);
      assert [d[0]] + (d[1..] + [(key, value)]) == d + [(key, value)];
    }
  }

  /** A key absent from d and different from the appended entry's stays absent. */
  lemma AbsentAfterAppend<V>(d: Dict<V>, e: (string, V), key: string)
    requires key !in Keys(d) && key != e.0
    ensures key !in Keys(d + [e])
  {
    KeysAppend(d, e);
  }

  /** Three new, different keys assigned in turn go to the end in that order. */
  lemma SetThreeAbsent<V>(d: Dict<V>, e1: (string, V), e2: (string, V), e3: (string, V))
    requires e1.0 !in Keys(d) && e2.0 !in Keys(d) && e3.0 !in Keys(d)
    requires e1.0 != e2.0 && e1.0 != e3.0 && e2.0 != e3.0
    ensures Set(Set(Set(d, e1.0, e1.1), e2.0, e2.1), e3.0, e3.1) == d + [e1, e2, e3]
  {
    var d1 := d + [e1];
    var d2 := d1 + [e2];
    calc {
      Set(Set(Set(d, e1.0, e1.1), e2.0, e2.1), e3.0, e3.1);
      == { SetAbsentAppends(d, e1.0, e1.1); }
      Set(Set(d1, e2.0, e2.1), e3.0, e3.1);
      == { AbsentAfterAppend(d, e1, e2.0); SetAbsentAppends(d1, e2.0, e2.1); }
      Set(d2, e3.0, e3.1);
      == { AbsentAfterAppend(d, e1, e3.0); AbsentAfterAppend(d1, e2, e3.0); SetAbsentAppends(d2, e3.0, e3.1); }
      d2 + [e3];
    }
    assert d2 + [e3] == d + [e1, e2, e3];
  }

  /** Filling a dictionary entry by entry, in order, rebuilds it one prefix at a time. */
  lemma SetExtendsPrefix<V>(d: Dict<V>, n: nat)
    requires DistinctKeys(d) && n < |d|
    ensures Set(d[..n], d[n].0, d[n].1) == d[..n + 1]
  {
    assert d[n].0 !in Keys(d[..n]);
    SetAbsentAppends(d[..n], d[n].0, d[n].1);
    assert d[..n] + [d[n]] == d[..n + 1];
  }

  /** An existing key keeps its place and only its value changes. */
  lemma {:induction false} SetExistingAt<V>(d: Dict<V>, i: nat, value: V)
    requires DistinctKeys(d) && i < |d|
    ensures Set(d, d[i].0, value) == d[i := (d[i].0, value)]
  {
    if i > 0 {
      assert DistinctKeys(d[1..]);
      SetExistingAt(d[1..], i - 1, value);
      assert d[1..][i - 1] == d[i];
      assert [d[0]] + d[1..][i - 1 := (d[i].0, value)] == d[i := (d[i].0, value)];
    }
  }

  /** Assigning the same key twice leaves the second value, in the first one's place. */
  lemma {:induction false} SetTwice<V>(d: Dict<V>, key: string, v1: V, v2: V)
    ensures Set(Set(d, key, v1), key, v2) == Set(d, key, v2)
  {
    if d != [] && d[0].0 != key {
      SetTwice(d[1..], key, v1, v2);
    }
  }

  /** `del d[key]`: the other entries stay, in their order. */
  function Remove<V>(d: Dict<V>, key: string): (r: Dict<V>)
    ensures Keys(r) == Keys(d) - {key}
    ensures forall k :: k != key ==> Lookup(r, k) == Lookup(d, k)
    ensures key !in Keys(d) ==> r == d
    ensures forall e :: e in r ==> e in d
    ensures DistinctKeys(d) && key in Keys(d) ==> |r| == |d| - 1
    ensures DistinctKeys(d) ==> DistinctKeys(r)
  {
    if d == [] then []
    else
      var rest := Remove(d[1..], key);
      assert d == [d[0]] + d[1..];
      KeysCons(d[0], d[1..]);
      if d[0].0 == key then
        assert DistinctKeys(d) ==> key !in Keys(d[1..]);
        rest
      else
        var r := [d[0]] + rest;
        assert forall i :: 0 < i < |r| ==> r[i] == rest[i - 1];
        KeysCons(d[0], rest);
        r
  }

  lemma {:induction false} DistinctKeysCount<V>(d: Dict<V>)
    requires DistinctKeys(d)
    ensures |Keys(d)| == |d|
  {
    if d != [] {
      var init := d[..|d| - 1];
      var last := d[|d| - 1];
      assert DistinctKeys(init);
      DistinctKeysCount(init);
      assert Keys(d) == Keys(init) + {last.0} by {
        assert forall i :: 0 <= i < |init| ==> init[i] == d[i];
      }
      assert last.0 !in Keys(init);
    }
  }
}
