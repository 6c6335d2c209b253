/** Values shared by every layer: bytes, four-byte keys, and maps read through an Option. */
module Types {

  datatype Option<+T> = None | Some(value: T)

  type byte = b: nat | b < 256

  /** Dev-LSM addresses a record by the first four bytes of the key, read as an unsigned integer. */
  type Key = k: nat | k < 0x1_0000_0000

  type Value = seq<byte>

  datatype Record = Record(key: Key, value: Value)

  function Lookup(m: map<Key, Value>, k: Key): Option<Value> {
    if k in m then Some(m[k]) else None
  }

  /** A store after a list of records was applied to it in order, later records winning. */
  function Overlay(m: map<Key, Value>, records: seq<Record>): map<Key, Value> {
    if records == [] then m
    else
      var last := records[|records| - 1];
      Overlay(m, records[..|records| - 1])[last.key := last.value]
  }

  predicate Mentions(records: seq<Record>, k: Key) {
    exists i :: 0 <= i < |records| && records[i].key == k
  }

  lemma OverlayAppend(m: map<Key, Value>, records: seq<Record>, r: Record)
    ensures Overlay(m, records + [r]) == Overlay(m, records)[r.key := r.value]
  {
  }

  /** A key that no record mentions keeps the value it had. */
  lemma {:induction false} OverlayUntouched(m: map<Key, Value>, records: seq<Record>, k: Key)
    requires !Mentions(records, k)
    ensures Lookup(Overlay(m, records), k) == Lookup(m, k)
  {
    if records == [] {
    } else {
      var front := records[..|records| - 1];
      assert records[|records| - 1].key != k;
      assert !Mentions(front, k);
      OverlayUntouched(m, front, k);
    }
  }
}
