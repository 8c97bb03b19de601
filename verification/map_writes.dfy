/**
 Ordered writes to a map: the shape of a backend's setup code, which takes the
 tables a base generator built and applies `put`/`remove` calls to them in a
 fixed order. The reference meaning of such a sequence is "the last write that
 touches a key decides that key; a key no write touches keeps its old entry".
 The CXF client's constructor writes each table once, so there every list has
 one write and the override of the base entry comes from `Step` alone.
 */
module MapWrites {

  datatype Option<+T> = None | Some(value: T)

  /** One call on a map: `m.put(key, value)` or `m.remove(key)`. */
  datatype Write = Put(key: string, value: string) | Remove(key: string)

  /** A string-to-string table such as a type mapping or an import mapping. */
  type Table = map<string, string>

  /** The entry for `k` is the same in `m` and `m'` (both absent, or both present and equal). */
  predicate SameEntry<K, V(==)>(m: map<K, V>, m': map<K, V>, k: K) {
    (k in m' <==> k in m) && (k in m ==> m'[k] == m[k])
  }

  /** A single write. */
  function Step(m: Table, w: Write): (r: Table)
    ensures w.Put? ==> w.key in r && r[w.key] == w.value
    ensures w.Remove? ==> w.key !in r
    ensures forall k :: k != w.key ==> SameEntry(m, r, k)
  {
    match w
    case Put(k, v) => m[k := v]
    case Remove(k) => m - {k}
  }

  /** The writes of `ws` applied to `m`, first write first. */
  function Apply(m: Table, ws: seq<Write>): (r: Table)
    ensures forall k :: LastWrite(ws, k).None? ==> SameEntry(m, r, k)
    ensures forall k :: LastWrite(ws, k).Some? && LastWrite(ws, k).value.Put? ==>
              k in r && r[k] == LastWrite(ws, k).value.value
    ensures forall k :: LastWrite(ws, k).Some? && LastWrite(ws, k).value.Remove? ==> k !in r
    decreases |ws|
  {
    if ws == [] then m else Step(Apply(m, ws[..|ws| - 1]), ws[|ws| - 1])
  }

  /** The reference definition: the last write in `ws` that touches `k`, if any. */
  function LastWrite(ws: seq<Write>, k: string): (r: Option<Write>)
    ensures r.Some? ==> exists i :: 0 <= i < |ws| && ws[i] == r.value && ws[i].key == k &&
                          forall j :: i < j < |ws| ==> ws[j].key != k
    ensures r.None? ==> forall i :: 0 <= i < |ws| ==> ws[i].key != k
    decreases |ws|
  {
    if ws == [] then None
    else if ws[|ws| - 1].key == k then Some(ws[|ws| - 1])
    else LastWrite(ws[..|ws| - 1], k)
  }
}
