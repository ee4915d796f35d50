/**
 * A fixed object literal used as a lookup table (`ENTITY_REGISTRY`, the component map),
 * modelled as its entries in declaration order.
 */
module Table {
  import opened Wrappers

  /** `Object.keys` of the table: its keys, in declaration order. */
  function Keys<V>(table: seq<(string, V)>): (keys: seq<string>)
    ensures |keys| == |table|
    ensures forall i :: 0 <= i < |table| ==> keys[i] == table[i].0
  {
    if table == [] then [] else [table[0].0] + Keys(table[1..])
  }

  /** Property lookup on the table: the value of the first entry with that key, if any. */
  function Lookup<V>(table: seq<(string, V)>, key: string): Option<V> {
    if table == [] then None
    else if table[0].0 == key then Some(table[0].1)
    else Lookup(table[1..], key)
  }

  /** A key is found exactly when it is one of the table's keys, and then with its entry's value. */
  lemma {:induction false} LookupFindsKeys<V>(table: seq<(string, V)>, key: string)
    ensures Lookup(table, key).Some? <==> key in Keys(table)
    ensures Lookup(table, key).Some? ==> (key, Lookup(table, key).value) in table
  {
    if table != [] {
      LookupFindsKeys(table[1..], key);
      assert Keys(table) == [table[0].0] + Keys(table[1..]);
    }
  }
}
