/**
 * An ordered map with unsigned keys, standing for Rust's `BTreeMap<u32, V>`: the
 * sequence of its entries in strictly ascending key order, which is also the order
 * in which `iter()` visits them.
 */
module BTree {
  import opened Wrappers

  datatype Entry<V> = Entry(key: nat, value: V)

  /** The representation invariant: keys strictly ascend (so each key occurs once). */
  ghost predicate Ascending<V>(m: seq<Entry<V>>)
  {
    forall i, j :: 0 <= i < j < |m| ==> m[i].key < m[j].key
  }

  function Keys<V>(m: seq<Entry<V>>): set<nat>
  {
    set i | 0 <= i < |m| :: m[i].key
  }

  /** `BTreeMap::get`: the value stored under `k`, if any. */
  function Get<V>(m: seq<Entry<V>>, k: nat): (r: Option<V>)
    ensures r.None? <==> k !in Keys(m)
    ensures r.Some? ==> exists i :: 0 <= i < |m| && m[i] == Entry(k, r.value)
  {
    if m == [] then None
    else if m[0].key == k then Some(m[0].value)
    else
      var r := Get(m[1..], k);
      assert Keys(m) == {m[0].key} + Keys(m[1..]) by {
        forall x | x in Keys(m) ensures x in {m[0].key} + Keys(m[1..]) {
          var i :| 0 <= i < |m| && m[i].key == x;
          if i > 0 { assert m[1..][i - 1].key == x; }
        }
        forall x | x in Keys(m[1..]) ensures x in Keys(m) {
          var i :| 0 <= i < |m[1..]| && m[1..][i].key == x;
          assert m[i + 1].key == x;
        }
      }
      assert r.Some? ==> exists i :: 0 <= i < |m[1..]| && m[1..][i] == Entry(k, r.value);
      r
  }

  /** In an ascending map, the entry at position `i` is what `Get` finds under its key. */
  lemma GetAt<V>(m: seq<Entry<V>>, i: nat)
    requires Ascending(m) && i < |m|
    ensures Get(m, m[i].key) == Some(m[i].value)
  {
    assert m[i].key in Keys(m);
    var r := Get(m, m[i].key);
    var j :| 0 <= j < |m| && m[j] == Entry(m[i].key, r.value);
    assert i == j;
  }
}
