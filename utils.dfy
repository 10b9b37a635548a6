/**
  Fault inspection (smrunner/helpers/utils.py): turns an exception into a
  record of its public properties, its class name and, when one resolves, its
  module name. The model follows Python 2, the version the code targets;
  `py3` selects the Python 3 behaviour of the code as written.
 */
module Utils {
  import opened PyValues
  import opened Errors

  /** `k.startswith('__') and k.endswith('__')`; "__" itself qualifies. */
  predicate IsDunder(k: string) {
    |k| >= 2 && k[..2] == "__" && k[|k| - 2..] == "__"
  }

  /** The NameError Python raises when it evaluates the unbound name `n`. */
  const UnboundN: Fault := Fault("NameError", false, "name 'n' is not defined", map[], None)

  /**
    `is_valid_prop(k)` as written: the `with_traceback` test reads `n`, which
    is bound nowhere. On Python 2 `six.PY3 and ...` stops before reading it;
    on Python 3 it raises NameError for every `k`.
   */
  function IsValidPropAsWritten(k: string, py3: bool): (r: Outcome<bool>)
    ensures !py3 ==> r.Return? && (r.value <==> !("__" <= k && "__" <= Reverse(k)))
    ensures py3 ==> r.Raise? && r.exc.Foreign? && r.exc.fault.className == "NameError"
  {
    if py3 then Raise(Foreign(UnboundN))
    else
      ReverseDunder(k);
      Return(!IsDunder(k))
  }

  /** `is_valid_prop(k)` reading `k` in the `with_traceback` test, as its docstring describes. */
  function IsValidProp(k: string, py3: bool): bool {
    !(py3 && k == "with_traceback") && !IsDunder(k)
  }

  function Reverse(s: string): (r: string)
    ensures |r| == |s|
    ensures forall i :: 0 <= i < |s| ==> r[i] == s[|s| - 1 - i]
  {
    if s == [] then [] else Reverse(s[1..]) + [s[0]]
  }

  /** Ending with "__" is starting the reversed name with "__". */
  lemma ReverseDunder(k: string)
    ensures IsDunder(k) <==> "__" <= k && "__" <= Reverse(k)
  {
    if |k| >= 2 {
      var r := Reverse(k);
      assert r[0] == k[|k| - 1] && r[1] == k[|k| - 2];
      assert "__" <= r <==> r[0] == '_' && r[1] == '_';
      assert "__" <= k <==> k[0] == '_' && k[1] == '_';
      assert k[..2] == "__" <==> k[0] == '_' && k[1] == '_';
      assert k[|k| - 2..] == "__" <==> k[|k| - 2] == '_' && k[|k| - 1] == '_';
    }
  }

  /** On Python 2 the corrected filter is the code as written. */
  lemma AsWrittenAgreesOnPy2(k: string)
    ensures IsValidPropAsWritten(k, false) == Return(IsValidProp(k, false))
  {
  }

  /** On Python 3 the code as written raises even for a name the filter keeps. */
  lemma AsWrittenRaisesOnPy3()
    ensures IsValidProp("args", true)
    ensures IsValidPropAsWritten("args", true).Raise?
  {
  }

  /**
    The corrected filter drops exactly the bracketed names, plus
    `with_traceback` on Python 3 only.
   */
  lemma FilterDropsDunders(k: string, py3: bool)
    ensures IsDunder(k) ==> !IsValidProp(k, py3)
    ensures !IsDunder(k) && k != "with_traceback" ==> IsValidProp(k, py3)
    ensures IsValidProp("with_traceback", py3) <==> !py3
  {
  }

  /**
    `inspect_err(e)`: the properties of `e` that pass the filter, each with its
    value, then `__name__` set to the class name and `__module__` set when a
    module resolves. The filter runs on every name `dir(e)` lists, so on
    Python 3 the first name raises NameError; only a fault with no names at
    all gets through there.
   */
  method InspectErr(e: Fault, py3: bool) returns (out: Outcome<map<string, Value>>)
    ensures out.Raise? <==> py3 && e.attributes != map[]
    ensures out.Raise? ==> out.exc == Foreign(UnboundN)
    ensures out.Return? ==> forall k :: k in e.attributes && IsValidProp(k, false) ==>
      k in out.value && out.value[k] == e.attributes[k]
    ensures out.Return? ==> forall k :: k in out.value && k != "__name__" && k != "__module__" ==>
      (k in e.attributes && IsValidProp(k, false) && out.value[k] == e.attributes[k])
    ensures out.Return? ==> "__name__" in out.value && out.value["__name__"] == Text(e.className)
    ensures out.Return? ==> ("__module__" in out.value <==> e.moduleName.Some?)
    ensures out.Return? && e.moduleName.Some? ==> out.value["__module__"] == Text(e.moduleName.value)
    ensures out.Return? ==> forall k :: k in out.value && IsDunder(k) ==> k == "__name__" || k == "__module__"
    ensures out.Return? && "args" in e.attributes ==> "args" in out.value && out.value["args"] == e.attributes["args"]
  {
    if py3 && e.attributes != map[] {
      var k :| k in e.attributes;
      return Raise(IsValidPropAsWritten(k, py3).exc);
    }
    var data := map k | k in e.attributes && IsValidProp(k, false) :: e.attributes[k];
    data := data["__name__" := Text(e.className)];
    if e.moduleName.Some? {
      data := data["__module__" := Text(e.moduleName.value)];
    }
    out := Return(data);
  }
}
