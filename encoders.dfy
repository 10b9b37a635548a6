/**
  The JSON decode normaliser (smrunner/helpers/encoders.py). `json.loads`
  yields lists and text; a code record wants tuples and byte strings, so every
  decoded JSON object is rewritten in place, one level deep.
 */
module Encoders {
  import opened PyValues
  import Utf8

  /** `fix_tuple(s)`: text becomes its UTF-8 bytes, everything else is returned as is. */
  function FixTuple(v: Value): (r: Value)
    ensures v.Text? ==> r.Bytes? && Utf8.Decode(r.bs) == Some(v.s)
    ensures !v.Text? ==> r == v
  {
    if v.Text? then
      Utf8.DecodeEncode(v.s);
      Bytes(Utf8.Encode(v.s))
    else v
  }

  /**
    What one pass of `json_code_hook` stores under a key whose value was `v`:
    both type tests look at the original `v`, so a value is converted at most
    once. A list becomes a tuple of the very same elements; text becomes
    bytes; anything else stays.
   */
  function Converted(v: Value): (r: Value)
    ensures v.List? ==> r == Tuple(v.items)
    ensures v.Text? ==> r.Bytes? && Utf8.Decode(r.bs) == Some(v.s)
    ensures !v.List? && !v.Text? ==> r == v
    ensures !r.List? && !r.Text?
  {
    if v.List? then Tuple(v.items) else FixTuple(v)
  }

  /** The dict `json_code_hook` leaves behind. */
  function HookMap(m: map<string, Value>): (r: map<string, Value>)
    ensures r.Keys == m.Keys
    ensures forall k :: k in m ==> r[k] == Converted(m[k])
  {
    map k | k in m :: Converted(m[k])
  }

  /**
    `json_code_hook(data)`: walks a snapshot of `data.items()` and rewrites
    `data[k]` in place; the same dict object is returned.
   */
  method JsonCodeHook(data: PyDict) returns (r: PyDict)
    modifies data
    ensures r == data
    ensures data.entries == HookMap(old(data.entries))
  {
    var items := data.entries;
    var pending := items.Keys;
    while pending != {}
      invariant pending <= items.Keys
      invariant data.entries.Keys == items.Keys
      invariant forall k :: k in pending ==> data.entries[k] == items[k]
      invariant forall k :: k in items && k !in pending ==> data.entries[k] == Converted(items[k])
      decreases pending
    {
      var k :| k in pending;
      var v := items[k];
      if v.List? {
        data.entries := data.entries[k := Tuple(v.items)];
      }
      if v.Text? {
        data.entries := data.entries[k := Bytes(Utf8.Encode(v.s))];
      }
      pending := pending - {k};
    }
    r := data;
  }

  /** A second pass finds no list and no text left, and changes nothing. */
  lemma {:induction false} HookIdempotent(m: map<string, Value>)
    ensures HookMap(HookMap(m)) == HookMap(m)
  {
    forall k | k in m
      ensures Converted(Converted(m[k])) == Converted(m[k])
    {
      var c := Converted(m[k]);
      assert !c.List? && !c.Text?;
    }
  }

  /**
    The conversion is shallow: the elements of a list are kept as they are,
    text ones included, and a nested dict is not touched.
   */
  lemma Shallow(m: map<string, Value>, k: string)
    requires k in m && (m[k].List? || m[k].Dict?)
    ensures m[k].List? ==> HookMap(m)[k].items == m[k].items
    ensures m[k].Dict? ==> HookMap(m)[k] == m[k]
  {
  }

  /** On everything but a list, the hook stores what `fix_tuple` returns. */
  lemma ConvertedIsFixTuple(v: Value)
    requires !v.List?
    ensures Converted(v) == FixTuple(v)
  {
  }

  /**
    `json.loads(text, object_hook=json_code_hook)`: the hook runs on every
    decoded object, innermost first, after its members have been decoded.
   */
  function Hooked(v: Value): (r: Value)
    ensures v.Dict? ==> r.Dict? && r.entries.Keys == v.entries.Keys
    ensures v.List? ==> r.List? && |r.items| == |v.items|
    ensures !v.Dict? && !v.List? ==> r == v
  {
    match v
    case Dict(m) => Dict(HookMap(map k | k in m :: Hooked(m[k])))
    case List(xs) => List(seq(|xs|, i requires 0 <= i < |xs| => Hooked(xs[i])))
    case _ => v
  }
}
