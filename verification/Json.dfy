/** Parsed YAML/JSON values, as the configuration loader and the scripts see them. */
module Json {

  /** `NotFinite` stands for NaN and the infinities, which are numbers but never integers. */
  datatype Value =
    | Null
    | Bool(b: bool)
    | Num(n: real)
    | NotFinite
    | Str(s: string)
    | Arr(items: seq<Value>)
    | Obj(fields: Fields)

  type Fields = map<string, Value>

  datatype Option<+T> = None | Some(value: T)

  datatype Result<+T, +E> = Ok(value: T) | Err(error: E)

  /** Property access: absent when the value is not a mapping or lacks the key. */
  function Field(v: Value, key: string): Option<Value> {
    if v.Obj? && key in v.fields then Some(v.fields[key]) else None
  }

  predicate IsInteger(v: Option<Value>) {
    v.Some? && v.value.Num? && v.value.n.Floor as real == v.value.n
  }

  /** JavaScript truthiness. */
  predicate Truthy(v: Option<Value>) {
    match v
    case None => false
    case Some(Null) => false
    case Some(Bool(b)) => b
    case Some(Num(n)) => n != 0.0
    case Some(Str(s)) => s != ""
    case Some(_) => true
  }

  /** What `JSON.parse(JSON.stringify(v))` yields: numbers JSON cannot write come back as null. */
  function JsonRound(v: Value): Value {
    match v
    case NotFinite => Null
    case Arr(items) => Arr(seq(|items|, i requires 0 <= i < |items| => JsonRound(items[i])))
    case Obj(fields) => Obj(map k | k in fields :: JsonRound(fields[k]))
    case _ => v
  }

  function RoundFields(f: Fields): Fields {
    map k | k in f :: JsonRound(f[k])
  }

  /** Every number inside is one JSON can write. */
  predicate Writable(v: Value) {
    match v
    case NotFinite => false
    case Arr(items) => forall i | 0 <= i < |items| :: Writable(items[i])
    case Obj(fields) => forall k | k in fields :: Writable(fields[k])
    case _ => true
  }

  /** A JSON clone is faithful exactly on the values JSON can write. */
  lemma {:induction false} CloneIsFaithfulIff(v: Value)
    ensures JsonRound(v) == v <==> Writable(v)
  {
    match v
    case Arr(items) =>
      forall i | 0 <= i < |items| ensures JsonRound(items[i]) == items[i] <==> Writable(items[i]) {
        CloneIsFaithfulIff(items[i]);
      }
      if JsonRound(v) == v {
        forall i | 0 <= i < |items| ensures Writable(items[i]) {
          assert JsonRound(v).items[i] == JsonRound(items[i]);
        }
      }
      if Writable(v) {
        assert JsonRound(v).items == items;
      }
    case Obj(fields) =>
      forall k | k in fields ensures JsonRound(fields[k]) == fields[k] <==> Writable(fields[k]) {
        CloneIsFaithfulIff(fields[k]);
      }
      if JsonRound(v) == v {
        forall k | k in fields ensures Writable(fields[k]) {
          assert JsonRound(v).fields[k] == JsonRound(fields[k]);
        }
      }
      if Writable(v) {
        assert JsonRound(v).fields == fields;
      }
    case _ =>
  }
}
