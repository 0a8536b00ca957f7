/** Python dictionaries as their `items()`: key/value pairs in insertion
    order, each key once. */
module PyDict {
  import opened Wrappers

  /** No key occurs twice. */
  predicate UniqueKeys<K(==), V>(items: seq<(K, V)>) {
    forall i, j :: 0 <= i < j < |items| ==> items[i].0 != items[j].0
  }

  /** No value occurs twice. */
  predicate UniqueValues<K, V(==)>(items: seq<(K, V)>) {
    forall i, j :: 0 <= i < j < |items| ==> items[i].1 != items[j].1
  }

  /** `d[key]`, `None` standing for KeyError. */
  function Get<K(==), V>(items: seq<(K, V)>, key: K): (r: Option<V>)
    ensures r.Some? <==> exists i :: 0 <= i < |items| && items[i].0 == key
    ensures r.Some? ==> exists i :: 0 <= i < |items| && items[i] == (key, r.value)
  {
    if items == [] then None
    else if items[0].0 == key then Some(items[0].1)
    else
      var r := Get(items[1..], key);
      assert forall i :: 0 <= i < |items| - 1 ==> items[1..][i] == items[i + 1];
      r
  }

  /** The first key in iteration order whose value is `value`. */
  function KeyOf<K, V(==)>(items: seq<(K, V)>, value: V): (r: Option<K>)
    ensures r.None? <==> forall i :: 0 <= i < |items| ==> items[i].1 != value
    ensures r.Some? ==> exists i :: 0 <= i < |items| && items[i] == (r.value, value)
                          && forall j :: 0 <= j < i ==> items[j].1 != value
  {
    if items == [] then None
    else if items[0].1 == value then Some(items[0].0)
    else
      var r := KeyOf(items[1..], value);
      assert forall i :: 0 <= i < |items| - 1 ==> items[1..][i] == items[i + 1];
      r
  }

  /** With unique keys, the key found for a value maps back to it. */
  lemma GetKeyOf<K, V>(items: seq<(K, V)>, value: V)
    requires UniqueKeys(items) && KeyOf(items, value).Some?
    ensures Get(items, KeyOf(items, value).value) == Some(value)
  {
    var k := KeyOf(items, value).value;
    var i :| 0 <= i < |items| && items[i] == (k, value);
    var j :| 0 <= j < |items| && items[j] == (k, Get(items, k).value);
    assert i == j;
  }

  /** With unique values, the key of a key's value is that key. */
  lemma KeyOfGet<K, V>(items: seq<(K, V)>, key: K)
    requires UniqueValues(items) && Get(items, key).Some?
    ensures KeyOf(items, Get(items, key).value) == Some(key)
  {
    var v := Get(items, key).value;
    var i :| 0 <= i < |items| && items[i] == (key, v);
    assert KeyOf(items, v).Some?;
    var j :| 0 <= j < |items| && items[j] == (KeyOf(items, v).value, v)
             && forall m :: 0 <= m < j ==> items[m].1 != v;
    assert i == j;
  }
}
