/** java.util.LinkedHashMap<String, String> as a value: the keys in insertion order and the key-value map. */
module LinkedMaps {

  datatype LinkedMap = LinkedMap(keys: seq<string>, values: map<string, string>) {

    /** Every key is listed once, and exactly the mapped keys are listed. */
    ghost predicate Valid() {
      && (forall i, j :: 0 <= i < j < |keys| ==> keys[i] != keys[j])
      && (forall k :: k in values <==> k in keys)
    }
  }

  const Empty: LinkedMap := LinkedMap([], map[])

  /**
   * LinkedHashMap.put(k, v): k maps to v afterwards; a new key is listed last,
   * a key already present keeps its place.
   */
  function Put(m: LinkedMap, k: string, v: string): (r: LinkedMap)
    requires m.Valid()
    ensures r.Valid()
    ensures r.values == m.values[k := v]
    ensures k in m.values ==> r.keys == m.keys
    ensures k !in m.values ==> r.keys == m.keys + [k]
  {
    LinkedMap(if k in m.values then m.keys else m.keys + [k], m.values[k := v])
  }
}
