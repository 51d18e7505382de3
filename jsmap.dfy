/**
 * JavaScript's `Map<string, V>`: a keyed collection whose iteration order is the order
 * in which keys were first inserted. `set` on a present key keeps its position.
 */
module JsMap {
  import opened Wrappers

  /** No key occurs twice. */
  predicate Distinct(keys: seq<string>) {
    forall i, j :: 0 <= i < j < |keys| ==> keys[i] != keys[j]
  }

  /** The position of a key. */
  function IndexOf(keys: seq<string>, k: string): (i: nat)
    requires k in keys
    ensures i < |keys| && keys[i] == k
    ensures forall j :: 0 <= j < i ==> keys[j] != k
  {
    if keys[0] == k then 0 else 1 + IndexOf(keys[1..], k)
  }

  /** `keys` with every occurrence of `k` taken out, the rest in order. */
  function Without(keys: seq<string>, k: string): (r: seq<string>)
    ensures forall x :: x in r <==> x in keys && x != k
    ensures Distinct(keys) ==> Distinct(r)
    ensures k !in keys ==> r == keys
  {
    if keys == [] then []
    else if keys[0] == k then Without(keys[1..], k)
    else
      var rest := Without(keys[1..], k);
      if Distinct(keys) then
        assert keys[0] !in keys[1..] by {
          forall j | 1 <= j < |keys| ensures keys[j] != keys[0] { }
        }
        DistinctCons(keys[0], rest);
        [keys[0]] + rest
      else
        [keys[0]] + rest
  }

  lemma DistinctCons(x: string, rest: seq<string>)
    requires x !in rest && Distinct(rest)
    ensures Distinct([x] + rest)
  {
    var s := [x] + rest;
    forall i, j | 0 <= i < j < |s| ensures s[i] != s[j] {
      if i == 0 { assert s[j] == rest[j - 1]; } else { assert s[i] == rest[i - 1] && s[j] == rest[j - 1]; }
    }
  }

  /** Taking a key out of a repetition-free key list removes exactly its one position. */
  lemma {:induction false} WithoutAt(keys: seq<string>, k: string)
    requires Distinct(keys) && k in keys
    ensures Without(keys, k) == keys[..IndexOf(keys, k)] + keys[IndexOf(keys, k) + 1..]
  {
    if keys[0] == k {
      assert k !in keys[1..];
    } else {
      WithoutAt(keys[1..], k);
      assert keys[1..][..IndexOf(keys[1..], k)] == keys[1..IndexOf(keys, k)];
      assert keys[1..][IndexOf(keys[1..], k) + 1..] == keys[IndexOf(keys, k) + 1..];
    }
  }

  datatype OrderedMap<V(!new)> = OrderedMap(keys: seq<string>, entries: map<string, V>) {

    /** The key list and the entry map describe the same keys, each once. */
    ghost predicate Valid() {
      Distinct(keys) && forall k :: k in entries <==> k in keys
    }

    /** `map.get(k)`: on a valid map, present exactly for the inserted keys, with the value listed at the key's position. */
    function Get(k: string): (r: Option<V>)
      ensures Valid() ==> (r.Some? <==> k in keys)
      ensures Valid() && k in keys ==> r == Some(Values()[IndexOf(keys, k)])
    {
      if k in entries then Some(entries[k]) else None
    }

    /** `Array.from(map.values())`: the values, in key-insertion order. */
    function Values(): (vs: seq<V>)
      requires Valid()
      ensures |vs| == |keys|
      ensures forall i :: 0 <= i < |keys| ==> keys[i] in entries && vs[i] == entries[keys[i]]
    {
      seq(|keys|, i requires 0 <= i < |keys| => entries[keys[i]])
    }

    /** `map.set(k, v)`: a present key is overwritten in place, a new key is appended. */
    function Set(k: string, v: V): (m: OrderedMap<V>)
      requires Valid()
      ensures m.Valid()
      ensures m.Get(k) == Some(v)
      ensures forall k' :: k' != k ==> m.Get(k') == Get(k')
      ensures k in entries ==> m.keys == keys && m.Values() == Values()[IndexOf(keys, k) := v]
      ensures k !in entries ==> m.keys == keys + [k] && m.Values() == Values() + [v]
    {
      if k in entries then
        var m := OrderedMap(keys, entries[k := v]);
        OverwriteKeepsOrder(this, k, v, m);
        m
      else
        var m := OrderedMap(keys + [k], entries[k := v]);
        AppendKeepsOrder(this, k, v, m);
        m
    }

    /** `map.delete(k)`: the key leaves, the others keep their order. */
    function Delete(k: string): (m: OrderedMap<V>)
      requires Valid()
      ensures m.Valid()
      ensures m.Get(k) == None
      ensures forall k' :: k' != k ==> m.Get(k') == Get(k')
      ensures k !in entries ==> m == this
      ensures k in entries ==>
        var i := IndexOf(keys, k);
        m.keys == keys[..i] + keys[i + 1..] && m.Values() == Values()[..i] + Values()[i + 1..]
    {
      var m := OrderedMap(Without(keys, k), entries - {k});
      if k in entries then DeleteKeepsOrder(this, k, m); m else m
    }
  }

  /** Overwriting a present key changes its value where it stands. */
  lemma OverwriteKeepsOrder<V(!new)>(m: OrderedMap<V>, k: string, v: V, r: OrderedMap<V>)
    requires m.Valid() && k in m.entries
    requires r == OrderedMap(m.keys, m.entries[k := v])
    ensures r.Valid()
    ensures r.Values() == m.Values()[IndexOf(m.keys, k) := v]
  {
    var i := IndexOf(m.keys, k);
    forall j | 0 <= j < |m.keys| ensures r.Values()[j] == m.Values()[i := v][j] {
      if j != i { assert m.keys[j] != k; }
    }
  }

  /** Setting a new key puts its value at the end. */
  lemma AppendKeepsOrder<V(!new)>(m: OrderedMap<V>, k: string, v: V, r: OrderedMap<V>)
    requires m.Valid() && k !in m.entries
    requires r == OrderedMap(m.keys + [k], m.entries[k := v])
    ensures r.Valid()
    ensures r.Values() == m.Values() + [v]
  {
    forall i, j | 0 <= i < j < |r.keys| ensures r.keys[i] != r.keys[j] {
      if j < |m.keys| { assert r.keys[i] == m.keys[i] && r.keys[j] == m.keys[j]; }
    }
    forall j | 0 <= j < |r.keys| ensures r.Values()[j] == (m.Values() + [v])[j] {
      if j < |m.keys| { assert m.keys[j] != k; }
    }
  }

  /** Deleting a present key removes exactly its value from the iteration order. */
  lemma DeleteKeepsOrder<V(!new)>(m: OrderedMap<V>, k: string, d: OrderedMap<V>)
    requires m.Valid() && k in m.entries
    requires d == OrderedMap(Without(m.keys, k), m.entries - {k})
    ensures d.Valid()
    ensures d.keys == m.keys[..IndexOf(m.keys, k)] + m.keys[IndexOf(m.keys, k) + 1..]
    ensures d.Values() == m.Values()[..IndexOf(m.keys, k)] + m.Values()[IndexOf(m.keys, k) + 1..]
  {
    WithoutAt(m.keys, k);
    ValuesAfterRemoval(m, d, IndexOf(m.keys, k));
  }

  /** Dropping position `i` of the key list drops position `i` of the values. */
  lemma ValuesAfterRemoval<V(!new)>(m: OrderedMap<V>, d: OrderedMap<V>, i: nat)
    requires m.Valid() && d.Valid()
    requires i < |m.keys| && d.keys == m.keys[..i] + m.keys[i + 1..]
    requires forall x :: x in d.entries ==> x in m.entries && d.entries[x] == m.entries[x]
    ensures d.Values() == m.Values()[..i] + m.Values()[i + 1..]
  {
    var vs, ws := m.Values(), d.Values();
    var expected := vs[..i] + vs[i + 1..];
    forall j | 0 <= j < |ws| ensures ws[j] == expected[j] {
      if j < i {
        assert d.keys[j] == m.keys[j];
      } else {
        assert d.keys[j] == m.keys[j + 1];
      }
    }
  }

  /** A value is listed by `values()` exactly when some key maps to it. */
  lemma ValuesMembership<V(!new)>(m: OrderedMap<V>, v: V)
    requires m.Valid()
    ensures v in m.Values() <==> exists k :: k in m.entries && m.entries[k] == v
  {
    var vs := m.Values();
    if v in vs {
      var i :| 0 <= i < |vs| && vs[i] == v;
      assert m.keys[i] in m.entries;
    }
    if exists k :: k in m.entries && m.entries[k] == v {
      var k :| k in m.entries && m.entries[k] == v;
      var i := IndexOf(m.keys, k);
      assert vs[i] == v;
    }
  }

  /** `new Map()`. */
  function Empty<V(!new)>(): (m: OrderedMap<V>)
    ensures m.Valid() && m.Values() == []
  {
    OrderedMap([], map[])
  }

  /** The map built by `rows.forEach(r => map.set(key(r), r))` from rows with distinct keys. */
  function FromRows<V(!new)>(rows: seq<V>, key: V -> string): (m: OrderedMap<V>)
    requires forall i, j :: 0 <= i < j < |rows| ==> key(rows[i]) != key(rows[j])
    ensures m.Valid() && m.Values() == rows
    ensures |m.keys| == |rows| && forall i :: 0 <= i < |rows| ==> m.keys[i] == key(rows[i])
  {
    if rows == [] then Empty() else
      var init := FromRows(rows[..|rows| - 1], key);
      AppendRow(init, rows, key);
      init.Set(key(rows[|rows| - 1]), rows[|rows| - 1])
  }

  /** Setting the last row's key on the map of the other rows appends that row. */
  lemma AppendRow<V(!new)>(init: OrderedMap<V>, rows: seq<V>, key: V -> string)
    requires rows != [] && init.Valid()
    requires forall i, j :: 0 <= i < j < |rows| ==> key(rows[i]) != key(rows[j])
    requires init.Values() == rows[..|rows| - 1] && |init.keys| == |rows| - 1
    requires forall i :: 0 <= i < |rows| - 1 ==> init.keys[i] == key(rows[i])
    ensures var m := init.Set(key(rows[|rows| - 1]), rows[|rows| - 1]);
      && m.Valid() && m.Values() == rows
      && |m.keys| == |rows| && forall i :: 0 <= i < |rows| ==> m.keys[i] == key(rows[i])
  {
    var last := rows[|rows| - 1];
    assert key(last) !in init.keys by {
      forall i | 0 <= i < |init.keys| ensures init.keys[i] != key(last) {
        assert init.keys[i] == key(rows[i]);
      }
    }
    assert rows == rows[..|rows| - 1] + [last];
  }
}
