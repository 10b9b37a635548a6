/**
  The custom field types of the record models (smrunner/helpers/schema.py).
  Each validator compares the value's exact type, `type(value) in ...`, so an
  instance of a subclass of an accepted type is rejected. A validator returns
  None when it accepts and the ValidationError message when it rejects.

  PyType names follow Python 2: `StrType` is the byte string type (Python 3
  calls it `bytes`) and `UnicodeType` the text type (Python 3 calls it `str`).
 */
module Schema {
  import opened PyValues

  /** TupleType: a tuple or a list. */
  function ValidateTuple(v: Value): (r: Option<string>)
    ensures r.None? <==> v.Tuple? || v.List?
    ensures r.Some? ==> r.value == "Type must be a tuple"
  {
    if TypeOf(v) in [TupleType, ListType] then None else Some("Type must be a tuple")
  }

  /** What the name `str` denotes. */
  function StrTypeOf(py2: bool): PyType {
    if py2 then StrType else UnicodeType
  }

  /** `[str, bytes]`, with `unicode` appended on Python 2 (`bytes` is the byte string type). */
  function BytesColls(py2: bool): seq<PyType> {
    [StrTypeOf(py2), StrType] + (if py2 then [UnicodeType] else [])
  }

  /** BytesType: on either version, exactly byte strings and text strings. */
  function ValidateBytes(v: Value, py2: bool): (r: Option<string>)
    ensures r.None? <==> v.Bytes? || v.Text?
    ensures r.Some? ==> r.value == "Type must be a valid bytes format"
  {
    if TypeOf(v) in BytesColls(py2) then None else Some("Type must be a valid bytes format")
  }

  /** LazyDictType: a dict and nothing else. */
  function ValidateLazyDict(v: Value): (r: Option<string>)
    ensures r.None? <==> v.Dict?
    ensures r.Some? ==> r.value == "Type must be a valid dict"
  {
    if TypeOf(v) != DictType then Some("Type must be a valid dict") else None
  }

  /** LazyDictOrListType: a dict or a list (a tuple is rejected). */
  function ValidateLazyDictOrList(v: Value): (r: Option<string>)
    ensures r.None? <==> v.Dict? || v.List?
    ensures r.Some? ==> r.value == "Type must be a valid dict or list"
  {
    if TypeOf(v) in [DictType, ListType] then None else Some("Type must be a valid dict or list")
  }

  /** DynamicType: every value. */
  function ValidateDynamic(v: Value): (r: Option<string>)
    ensures r.None?
  {
    None
  }

  /**
    The type test is exact: an instance of a subclass of tuple, str, unicode,
    dict or list (a namedtuple, an OrderedDict) passes `isinstance` for its
    base but is rejected by every validator except DynamicType.
   */
  lemma SubclassInstancesRejected(v: Value, base: PyType, py2: bool)
    requires v.Object? && base in v.bases
    ensures IsInstance(v, base)
    ensures ValidateTuple(v).Some? && ValidateBytes(v, py2).Some?
    ensures ValidateLazyDict(v).Some? && ValidateLazyDictOrList(v).Some?
  {
  }

  /** The Python version switch in BytesType does not change what it accepts. */
  lemma BytesTypeSameOnBothVersions(v: Value)
    ensures ValidateBytes(v, true) == ValidateBytes(v, false)
  {
  }
}
