/**
  The Python 2 values the runner moves around: arguments, results, fields of a
  code record, JSON documents and error payloads. Text (`unicode`) and Bytes
  (`str`) are kept apart, as Python 2 keeps them apart.
 */
module PyValues {

  type byte = x: int | 0 <= x < 256

  datatype Option<+T> = None | Some(value: T)

  /** The built-in types a value can have; `UserClass` is any other class. */
  datatype PyType =
    | NoneType
    | BoolType
    | IntType
    | UnicodeType
    | StrType
    | ListType
    | TupleType
    | DictType
    | UserClass(name: string)

  datatype Value =
    | PyNone
    | Bool(b: bool)
    | Int(i: int)
    | Text(s: string)
    | Bytes(bs: seq<byte>)
    | List(items: seq<Value>)
    | Tuple(items: seq<Value>)
    | Dict(entries: map<string, Value>)
      /** An instance of any other class (a code object, a function, an
          instance of a subclass of a built-in type), with the built-in types
          it inherits from. */
    | Object(typeName: string, bases: set<PyType>)

  /** `type(v)`: the exact type, never a base class. */
  function TypeOf(v: Value): PyType {
    match v
    case PyNone => NoneType
    case Bool(_) => BoolType
    case Int(_) => IntType
    case Text(_) => UnicodeType
    case Bytes(_) => StrType
    case List(_) => ListType
    case Tuple(_) => TupleType
    case Dict(_) => DictType
    case Object(name, _) => UserClass(name)
  }

  /** `isinstance(v, t)`: the exact type or one of its built-in bases. */
  predicate IsInstance(v: Value, t: PyType) {
    TypeOf(v) == t || (v.Object? && t in v.bases)
  }

  /**
    An exception raised by code this model does not contain (the interpreter,
    a library, the executed function's body), as the runner can observe it:
    its class name, whether it is a `TypeError` (or a subclass of it), `str(e)`,
    the result of `getattr(e, k)` for every name `k` in `dir(e)`, and the name
    of the module `inspect.getmodule(e)` resolves, if any.
   */
  datatype Fault = Fault(
    className: string,
    isTypeError: bool,
    text: string,
    attributes: map<string, Value>,
    moduleName: Option<string>)

  /** A Python dict object that code updates in place. */
  class PyDict {
    var entries: map<string, Value>

    constructor (entries: map<string, Value>)
      ensures this.entries == entries
    {
      this.entries := entries;
    }
  }
}
