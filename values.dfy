/** Values that cross the bridge between the SQL engine and the socket protocol:
    the engine's dynamically typed cells, the `[String: Any]` dictionaries the
    viewer builds from them, and the rule by which Swift's dictionary subscript
    assignment fills such a dictionary. */
module Values {

  datatype Option<+T> = None | Some(value: T) {
    function GetOr(default: T): T {
      match this
      case Some(v) => v
      case None => default
    }
  }

  /** A cell as the SQL engine hands it back. */
  datatype SqlValue = Null | Integer(i: int) | Real(r: real) | Text(s: string) | Blob(bytes: seq<bv8>)

  /** One cell of a result row together with the name of its column. */
  datatype Column = Column(name: string, value: SqlValue)

  /** A result row: its cells in column order. */
  type Row = seq<Column>

  /** The `Any` values that the viewer stores in its dictionaries and arrays. */
  datatype Json =
    | Int(i: int)
    | Number(r: real)
    | Str(s: string)
    | Bytes(bytes: seq<bv8>)         // a blob cell, bridged to `Data`
    | Uuid(token: nat)               // `UUID().uuidString`, drawn from a counter
    | Arr(items: seq<Json>)
    | Obj(fields: map<string, Json>)

  /** A `[String]` array bridged to `Any`. */
  function Strings(names: seq<string>): seq<Json> {
    seq(|names|, i requires 0 <= i < |names| => Str(names[i]))
  }

  /** `row.value(at:)` read as `Any?`: NULL becomes `nil`. */
  function Cell(v: SqlValue): Option<Json> {
    match v
    case Null => None
    case Integer(i) => Some(Int(i))
    case Real(r) => Some(Number(r))
    case Text(s) => Some(Str(s))
    case Blob(b) => Some(Bytes(b))
  }

  /** What `JSONSerialization` accepts: everything but `Data`. */
  predicate Serializable(j: Json) {
    match j
    case Bytes(_) => false
    case Arr(items) => forall i | 0 <= i < |items| :: Serializable(items[i])
    case Obj(fields) => forall k | k in fields :: Serializable(fields[k])
    case _ => true
  }

  /** Adding a new key to a dictionary keeps it encodable exactly when the
      dictionary and the new value are. */
  lemma SerializableInsert(d: map<string, Json>, k: string, x: Json)
    requires k !in d
    ensures Serializable(Obj(d[k := x])) <==> Serializable(Obj(d)) && Serializable(x)
  {
    if Serializable(Obj(d[k := x])) {
      assert d[k := x][k] == x;
      forall key | key in d ensures Serializable(d[key]) {
        assert d[k := x][key] == d[key];
      }
    }
  }

  /** Swift's `d[k] = v` for an optional `v`: assigning `nil` removes the key. */
  function Put<K(==), V>(d: map<K, V>, k: K, v: Option<V>): map<K, V> {
    match v
    case None => d - {k}
    case Some(x) => d[k := x]
  }

  /** The dictionary that a sequence of subscript assignments leaves behind,
      starting from the empty dictionary. */
  function Assigned<K(==), V>(writes: seq<(K, Option<V>)>): map<K, V> {
    if writes == [] then map[]
    else
      var n := |writes| - 1;
      Put(Assigned(writes[..n]), writes[n].0, writes[n].1)
  }

  /** The position of the last assignment to key `k`, or -1 when there is none. */
  function LastIndex<K(==), V>(writes: seq<(K, Option<V>)>, k: K): (r: int)
    ensures -1 <= r < |writes|
    ensures r >= 0 ==> writes[r].0 == k
    ensures forall j | r < j < |writes| :: writes[j].0 != k
  {
    if writes == [] then -1
    else if writes[|writes| - 1].0 == k then |writes| - 1
    else LastIndex(writes[..|writes| - 1], k)
  }

  /** Last write wins: a key is present exactly when its last assignment was
      not `nil`, and then it holds the value of that last assignment. */
  lemma {:induction false} AssignedLastWins<K, V>(writes: seq<(K, Option<V>)>, k: K)
    ensures var i := LastIndex(writes, k);
      && (k in Assigned(writes) <==> i >= 0 && writes[i].1.Some?)
      && (k in Assigned(writes) ==> Assigned(writes)[k] == writes[i].1.value)
  {
    if writes != [] {
      var n := |writes| - 1;
      AssignedLastWins(writes[..n], k);
    }
  }

  /** When no assignment is `nil`, the keys are exactly the keys written. */
  lemma {:induction false} AssignedKeys<K, V>(writes: seq<(K, Option<V>)>)
    requires forall i | 0 <= i < |writes| :: writes[i].1.Some?
    ensures Assigned(writes).Keys == set i | 0 <= i < |writes| :: writes[i].0
  {
    if writes != [] {
      var n := |writes| - 1;
      AssignedKeys(writes[..n]);
      assert (set i | 0 <= i < |writes| :: writes[i].0)
          == (set i | 0 <= i < n :: writes[..n][i].0) + {writes[n].0};
    }
  }

  /** Distinct keys written make as many entries as there were writes. */
  lemma {:induction false} DistinctKeysCount<K, V>(writes: seq<(K, Option<V>)>)
    requires forall i, j | 0 <= i < j < |writes| :: writes[i].0 != writes[j].0
    ensures |set i | 0 <= i < |writes| :: writes[i].0| == |writes|
  {
    if writes != [] {
      var n := |writes| - 1;
      DistinctKeysCount(writes[..n]);
      var before := set i | 0 <= i < n :: writes[..n][i].0;
      assert (set i | 0 <= i < |writes| :: writes[i].0) == before + {writes[n].0};
      assert writes[n].0 !in before;
    }
  }
}
