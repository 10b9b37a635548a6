/**
  The JSON library as the runner uses it. `json.dumps` and `json.loads` are
  not part of this model: a Codec is any pair of functions, and Faithful says
  what the Python 2 library guarantees of them, namely that loading what was
  dumped gives back the value's JSON view.
 */
module Json {
  import opened PyValues
  import Utf8

  /** Values made only of what JSON has: null, booleans, numbers, strings, arrays, objects. */
  predicate Native(v: Value) {
    match v
    case List(xs) => forall i :: 0 <= i < |xs| ==> Native(xs[i])
    case Dict(m) => forall k :: k in m ==> Native(m[k])
    case Tuple(_) => false
    case Bytes(_) => false
    case Object(_, _) => false
    case _ => true
  }

  /**
    Values `json.dumps` encodes without fail: built-in values whose byte
    strings are all UTF-8. Instances of other classes are left aside; some
    encode (floats, subclasses of built-in types) and others raise.
   */
  predicate Encodable(v: Value) {
    match v
    case Bytes(bs) => Utf8.IsUtf8(bs)
    case List(xs) => forall i :: 0 <= i < |xs| ==> Encodable(xs[i])
    case Tuple(xs) => forall i :: 0 <= i < |xs| ==> Encodable(xs[i])
    case Dict(m) => forall k :: k in m ==> Encodable(m[k])
    case Object(_, _) => false
    case _ => true
  }

  /**
    `json.loads(json.dumps(v))`: a tuple comes back as a list and a byte string
    as the text it encodes; the result is JSON-native, and a JSON-native value
    comes back unchanged.
   */
  function JsonView(v: Value): (r: Value)
    requires Encodable(v)
    ensures Native(r)
    ensures Native(v) ==> r == v
  {
    match v
    case Bytes(bs) => Text(Utf8.Decode(bs).value)
    case List(xs) => List(seq(|xs|, i requires 0 <= i < |xs| => JsonView(xs[i])))
    case Tuple(xs) => List(seq(|xs|, i requires 0 <= i < |xs| => JsonView(xs[i])))
    case Dict(m) => Dict(map k | k in m :: JsonView(m[k]))
    case _ => v
  }

  /** A pair of serialiser functions: `dumps(value, skipkeys)` (None when it raises) and `loads`. */
  datatype Codec = Codec(dumps: (Value, bool) -> Option<string>, loads: string -> Option<Value>)

  /**
    What the library guarantees of every value the runner knows to be
    encodable: `dumps` succeeds and `loads` gives back the JSON view. Nothing
    is said of other values (floats, subclasses of built-in types), which the
    library may well encode.
   */
  ghost predicate Faithful(c: Codec) {
    forall v: Value, skipkeys: bool {:trigger c.dumps(v, skipkeys)} :: Encodable(v) ==>
      c.dumps(v, skipkeys).Some? && c.loads(c.dumps(v, skipkeys).value) == Some(JsonView(v))
  }

  /** Every JSON-native value survives a faithful dump and load unchanged. */
  lemma NativeRoundTrip(c: Codec, v: Value, skipkeys: bool)
    requires Faithful(c) && Native(v)
    ensures c.dumps(v, skipkeys).Some?
    ensures c.loads(c.dumps(v, skipkeys).value) == Some(v)
  {
    NativeIsEncodable(v);
  }

  lemma {:induction false} NativeIsEncodable(v: Value)
    requires Native(v)
    ensures Encodable(v)
  {
    match v
    case List(xs) =>
      forall i | 0 <= i < |xs| ensures Encodable(xs[i]) { NativeIsEncodable(xs[i]); }
    case Dict(m) =>
      forall k | k in m ensures Encodable(m[k]) { NativeIsEncodable(m[k]); }
    case _ =>
  }
}
