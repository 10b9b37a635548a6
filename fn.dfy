/**
  The code record and the function runner (smrunner/fn.py). A Code record
  holds the fields of a compiled Python code object; a Function rebuilds the
  code object and a function around it, calls it, and maps a call-time
  TypeError into the error taxonomy.

  The interpreter itself is not part of this model: building a code object,
  building a function and calling it are the functions of a Host, each
  returning a value or raising.
 */
module Fn {
  import opened PyValues
  import opened Errors
  import Json
  import Utf8
  import Schema
  import Encoders

  /** The interpreter primitives the runner calls. */
  datatype Host = Host(
    codeType: seq<Value> -> Outcome<Value>,        // types.CodeType(*args)
    functionType: FunctionParts -> Outcome<Value>, // types.FunctionType(...)
    call: (Value, seq<Value>, map<string, Value>) -> Outcome<Value>, // fn(*args, **kwargs)
    builtins: Value)                              // globals()['__builtins__'] of smrunner.fn

  /** The arguments of `types.FunctionType(code, globals, name, argdefs, closure)`. */
  datatype FunctionParts = FunctionParts(
    code: Value, globals: map<string, Value>, name: Value, argdefs: Value, closure: Value)

  /** The fields of a code record; `Key` gives each one's attribute name. */
  datatype FieldName =
    | ArgCount | KwOnlyArgCount | NLocals | StackSize | Flags | Codestring | Consts | Names
    | VarNames | FileName | Name | FirstLineNo | LnoTab | FreeVars | CellVars | Defaults

  function Key(f: FieldName): string {
    match f
    case ArgCount => "argcount"
    case KwOnlyArgCount => "kwonlyargcount"
    case NLocals => "nlocals"
    case StackSize => "stacksize"
    case Flags => "flags"
    case Codestring => "code"
    case Consts => "consts"
    case Names => "names"
    case VarNames => "varnames"
    case FileName => "filename"
    case Name => "name"
    case FirstLineNo => "firstlineno"
    case LnoTab => "lnotab"
    case FreeVars => "freevars"
    case CellVars => "cellvars"
    case Defaults => "defaults"
  }

  /** The 15 code fields, in the order `as_dict` lists them and `as_code` passes them. */
  const CodeFields: seq<FieldName> := [
    ArgCount, KwOnlyArgCount, NLocals, StackSize, Flags, Codestring, Consts, Names,
    VarNames, FileName, Name, FirstLineNo, LnoTab, FreeVars, CellVars]

  /** CODE_HELPER_PROPS: the fields that are not code-object arguments. */
  const HelperProps: seq<FieldName> := [Defaults]

  datatype FieldType = IntField | TupleField | BytesField | StringField

  /** The declared type of each field. */
  function FieldTypeOf(f: FieldName): FieldType {
    match f
    case ArgCount | KwOnlyArgCount | FirstLineNo | Flags | NLocals | StackSize => IntField
    case Codestring | LnoTab => BytesField
    case FileName | Name => StringField
    case _ => TupleField
  }

  /** Every code field but `kwonlyargcount` is declared required; `defaults` is optional. */
  predicate Required(f: FieldName) {
    f != Defaults && f != KwOnlyArgCount
  }

  /** The value a field takes when the raw data lacks it. */
  function Default(f: FieldName): Value {
    match f
    case KwOnlyArgCount => Int(0)
    case Name => Text("<string>")
    case _ => PyNone
  }

  /** The raw data gives field `f` a value: its key is present and not None. */
  predicate Given(raw: map<string, Value>, f: FieldName) {
    Key(f) in raw && raw[Key(f)] != PyNone
  }

  /**
    `cls(raw_data=raw)` sets each field from the raw data, or to its default
    when the key is missing or holds None: the import loop of schematics 1.1
    treats an explicit None as missing.
   */
  function RawField(raw: map<string, Value>, f: FieldName): Value {
    if Given(raw, f) then raw[Key(f)] else Default(f)
  }

  /**
    What `validate()` accepts in a field: a value of the declared type, or
    None where the field is not required or, like `name`, has a default
    that the import loop puts in its place first.
   */
  predicate Accepts(f: FieldName, v: Value) {
    if v == PyNone then !Required(f) || Default(f) != PyNone
    else
      match FieldTypeOf(f)
      case IntField => v.Int?
      case TupleField => Schema.ValidateTuple(v).None?
      case BytesField => Schema.ValidateBytes(v, true).None?
      case StringField => v.Text? || v.Bytes?
  }

  /** `k.replace('co_', '')`: every non-overlapping "co_", scanning left to right, is removed. */
  function DropCo(k: string): (r: string)
    ensures |r| <= |k|
  {
    if |k| < 3 then k
    else if k[..3] == "co_" then DropCo(k[3..])
    else [k[0]] + DropCo(k[1..])
  }

  /** No "co_" occurs anywhere in `s`. */
  predicate NoCo(s: string) {
    |s| < 3 || (s[..3] != "co_" && NoCo(s[1..]))
  }

  /** A name with no "co_" in it is left alone. */
  lemma {:induction false} DropCoKeeps(s: string)
    requires NoCo(s)
    ensures DropCo(s) == s
  {
    if |s| >= 3 {
      DropCoKeeps(s[1..]);
      assert [s[0]] + s[1..] == s;
    }
  }

  /** `k.startswith('co_')`. */
  predicate HasCo(k: string) {
    |k| >= 3 && k[..3] == "co_"
  }

  /** `co_X` becomes `X` when X holds no further "co_". */
  lemma StripCo(k: string)
    requires HasCo(k) && NoCo(k[3..])
    ensures DropCo(k) == k[3..]
  {
    DropCoKeeps(k[3..]);
  }

  /** Two `co_` names with the same rest are the same name. */
  lemma SameRest(a: string, b: string)
    requires HasCo(a) && HasCo(b) && a[3..] == b[3..]
    ensures a == b
  {
    assert a == a[..3] + a[3..];
    assert b == b[..3] + b[3..];
  }

  /**
    `{k.replace('co_', ''): getattr(code, k) for k in dir(code) if
    k.startswith('co_')}`, given the attribute names with their values in
    `dir` order; a later key overwrites an earlier one.
   */
  function CoData(attrs: seq<(string, Value)>): map<string, Value>
  {
    if attrs == [] then map[]
    else
      var m := CoData(attrs[..|attrs| - 1]);
      var (k, v) := attrs[|attrs| - 1];
      if HasCo(k) then m[DropCo(k) := v] else m
  }

  /** The keys of CoData: the stripped names of the `co_` attributes. */
  lemma {:induction false} CoDataKeys(attrs: seq<(string, Value)>)
    ensures forall x :: x in CoData(attrs) <==>
      exists i :: 0 <= i < |attrs| && HasCo(attrs[i].0) && DropCo(attrs[i].0) == x
  {
    if attrs != [] {
      var init := attrs[..|attrs| - 1];
      CoDataKeys(init);
      forall x
        ensures x in CoData(attrs) <==>
          exists i :: 0 <= i < |attrs| && HasCo(attrs[i].0) && DropCo(attrs[i].0) == x
      {
        if x in CoData(init) {
          var i :| 0 <= i < |init| && HasCo(init[i].0) && DropCo(init[i].0) == x;
          assert attrs[i] == init[i];
        }
        if exists i :: 0 <= i < |attrs| && HasCo(attrs[i].0) && DropCo(attrs[i].0) == x {
          var i :| 0 <= i < |attrs| && HasCo(attrs[i].0) && DropCo(attrs[i].0) == x;
          if i < |init| {
            assert attrs[i] == init[i];
          }
        }
      }
    }
  }

  /** When no two `co_` attributes strip to the same name, each stripped name holds its attribute's value. */
  lemma {:induction false} CoDataValues(attrs: seq<(string, Value)>)
    requires forall i, j :: 0 <= i < j < |attrs| && HasCo(attrs[i].0) && HasCo(attrs[j].0) ==>
      DropCo(attrs[i].0) != DropCo(attrs[j].0)
    ensures forall i :: 0 <= i < |attrs| && HasCo(attrs[i].0) ==>
      DropCo(attrs[i].0) in CoData(attrs) && CoData(attrs)[DropCo(attrs[i].0)] == attrs[i].1
  {
    if attrs != [] {
      var init := attrs[..|attrs| - 1];
      CoDataValues(init);
      forall i | 0 <= i < |attrs| && HasCo(attrs[i].0)
        ensures DropCo(attrs[i].0) in CoData(attrs) && CoData(attrs)[DropCo(attrs[i].0)] == attrs[i].1
      {
        if i < |init| {
          assert attrs[i] == init[i];
        }
      }
    }
  }

  /** On a code object's attribute names, stripping is dropping the first three characters. */
  lemma StripAll(attrs: seq<(string, Value)>)
    requires forall i :: 0 <= i < |attrs| && HasCo(attrs[i].0) ==> NoCo(attrs[i].0[3..])
    ensures forall i :: 0 <= i < |attrs| && HasCo(attrs[i].0) ==> DropCo(attrs[i].0) == attrs[i].0[3..]
  {
    forall i | 0 <= i < |attrs| && HasCo(attrs[i].0) ensures DropCo(attrs[i].0) == attrs[i].0[3..] {
      StripCo(attrs[i].0);
    }
  }

  /**
    With distinct attribute names, each of the form `co_X` with no further
    "co_" in X (as a code object's are), CoData maps exactly each X to the
    value of `co_X`.
   */
  lemma CoDataFields(attrs: seq<(string, Value)>)
    requires forall i, j :: 0 <= i < j < |attrs| ==> attrs[i].0 != attrs[j].0
    requires forall i :: 0 <= i < |attrs| && HasCo(attrs[i].0) ==> NoCo(attrs[i].0[3..])
    ensures forall x :: x in CoData(attrs) <==>
      exists i :: 0 <= i < |attrs| && HasCo(attrs[i].0) && attrs[i].0[3..] == x
    ensures forall i :: 0 <= i < |attrs| && HasCo(attrs[i].0) ==>
      CoData(attrs)[attrs[i].0[3..]] == attrs[i].1
  {
    StripAll(attrs);
    forall i, j | 0 <= i < j < |attrs| && HasCo(attrs[i].0) && HasCo(attrs[j].0)
      ensures DropCo(attrs[i].0) != DropCo(attrs[j].0)
    {
      if attrs[i].0[3..] == attrs[j].0[3..] {
        SameRest(attrs[i].0, attrs[j].0);
      }
    }
    CoDataKeys(attrs);
    CoDataValues(attrs);
  }

  /** The `Code` record. */
  class Code {
    var argcount: Value
    var kwonlyargcount: Value
    var cellvars: Value
    var code: Value
    var consts: Value
    var filename: Value
    var firstlineno: Value
    var flags: Value
    var freevars: Value
    var lnotab: Value
    var name: Value
    var names: Value
    var nlocals: Value
    var stacksize: Value
    var varnames: Value
    var defaults: Value

    /** `getattr(self, Key(f))`. */
    function Get(f: FieldName): Value
      reads this
    {
      match f
      case ArgCount => argcount
      case KwOnlyArgCount => kwonlyargcount
      case NLocals => nlocals
      case StackSize => stacksize
      case Flags => flags
      case Codestring => code
      case Consts => consts
      case Names => names
      case VarNames => varnames
      case FileName => filename
      case Name => name
      case FirstLineNo => firstlineno
      case LnoTab => lnotab
      case FreeVars => freevars
      case CellVars => cellvars
      case Defaults => defaults
    }

    /** Every field holds what `cls(raw_data=raw)` puts there. */
    predicate Built(raw: map<string, Value>)
      reads this
    {
      forall f :: Get(f) == RawField(raw, f)
    }

    /** `validate()` passes: every field holds a value its type accepts. */
    predicate Validates()
      reads this
    {
      forall f :: Accepts(f, Get(f))
    }

    /** `Code(raw_data=raw)`; keys that are not fields are ignored. */
    constructor FromRaw(raw: map<string, Value>)
      ensures Built(raw)
    {
      argcount := RawField(raw, ArgCount);
      kwonlyargcount := RawField(raw, KwOnlyArgCount);
      cellvars := RawField(raw, CellVars);
      code := RawField(raw, Codestring);
      consts := RawField(raw, Consts);
      filename := RawField(raw, FileName);
      firstlineno := RawField(raw, FirstLineNo);
      flags := RawField(raw, Flags);
      freevars := RawField(raw, FreeVars);
      lnotab := RawField(raw, LnoTab);
      name := RawField(raw, Name);
      names := RawField(raw, Names);
      nlocals := RawField(raw, NLocals);
      stacksize := RawField(raw, StackSize);
      varnames := RawField(raw, VarNames);
      defaults := RawField(raw, Defaults);
      new;
      forall f ensures Get(f) == RawField(raw, f) {
        match f
        case ArgCount =>
        case KwOnlyArgCount =>
        case NLocals =>
        case StackSize =>
        case Flags =>
        case Codestring =>
        case Consts =>
        case Names =>
        case VarNames =>
        case FileName =>
        case Name =>
        case FirstLineNo =>
        case LnoTab =>
        case FreeVars =>
        case CellVars =>
        case Defaults =>
      }
    }

    /** `parse_args(spec)`: takes the argspec's defaults unless they are None. */
    method ParseArgs(specDefaults: Value)
      modifies this
      ensures defaults == (if specDefaults != PyNone then specDefaults else old(defaults))
      ensures forall f :: f != Defaults ==> Get(f) == old(Get(f))
    {
      if specDefaults != PyNone {
        defaults := specDefaults;
      }
    }

    /** `Code.from_function(fn)`, given `dir(fn.__code__)` with the values and the argspec's defaults. */
    static method FromFunction(attrs: seq<(string, Value)>, specDefaults: Value) returns (c: Code)
      ensures fresh(c)
      ensures forall f :: f != Defaults ==> c.Get(f) == RawField(CoData(attrs), f)
      ensures c.defaults == (if specDefaults != PyNone then specDefaults else RawField(CoData(attrs), Defaults))
    {
      var data := CoData(attrs);
      c := new Code.FromRaw(data);
      c.ParseArgs(specDefaults);
    }

    /** The dict display `as_dict` starts from: each code field under its name. */
    function CodeEntries(): map<string, Value>
      reads this
    {
      map[
        Key(ArgCount) := argcount, Key(KwOnlyArgCount) := kwonlyargcount, Key(NLocals) := nlocals,
        Key(StackSize) := stacksize, Key(Flags) := flags, Key(Codestring) := code,
        Key(Consts) := consts, Key(Names) := names, Key(VarNames) := varnames,
        Key(FileName) := filename, Key(Name) := name, Key(FirstLineNo) := firstlineno,
        Key(LnoTab) := lnotab, Key(FreeVars) := freevars, Key(CellVars) := cellvars]
    }

    /** `as_dict(only_code)`: the 15 code fields, plus `defaults` when `only_code` is False. */
    function Record(onlyCode: bool): (r: map<string, Value>)
      reads this
      ensures forall f :: Key(f) in r <==> f != Defaults || !onlyCode
      ensures forall f :: Key(f) in r ==> r[Key(f)] == Get(f)
      ensures forall k :: k in r ==> exists f :: Key(f) == k
    {
      CodeEntriesKeys(this);
      CodeEntriesValues(this);
      DefaultsKeyApart();
      if onlyCode then CodeEntries() else CodeEntries()[Key(Defaults) := defaults]
    }

    /** `data` after `data.update({key: getattr(self, key)})` for each field of `props` in turn. */
    function WithProps(data: map<string, Value>, props: seq<FieldName>): map<string, Value>
      reads this
    {
      if props == [] then data
      else
        var last := props[|props| - 1];
        WithProps(data, props[..|props| - 1])[Key(last) := Get(last)]
    }

    /** `as_dict(only_code)`: builds the code-field dict, then adds each helper property. */
    method AsDict(onlyCode: bool) returns (data: map<string, Value>)
      ensures data == Record(onlyCode)
    {
      data := CodeEntries();
      if !onlyCode {
        for i := 0 to |HelperProps|
          invariant data == WithProps(CodeEntries(), HelperProps[..i])
        {
          assert HelperProps[..i + 1][..i] == HelperProps[..i];
          data := data[Key(HelperProps[i]) := Get(HelperProps[i])];
        }
        assert HelperProps[..|HelperProps|] == [Defaults];
        assert [Defaults][..0] == [];
      }
    }

    /**
      `as_json(only_code)` as written: `json.dumps(self.as_dict(), only_code)`.
      `as_dict` gets its default, so the record is always the code-only one,
      and `only_code` lands in `json.dumps`'s `skipkeys` parameter.
     */
    function AsJson(onlyCode: bool, codec: Json.Codec): Option<string>
      reads this
    {
      codec.dumps(Dict(Record(true)), onlyCode)
    }

    /** `as_json(only_code)` passing `only_code` to `as_dict`, where it was evidently meant to go. */
    function AsJsonForwarded(onlyCode: bool, codec: Json.Codec): Option<string>
      reads this
    {
      codec.dumps(Dict(Record(onlyCode)), false)
    }

    /** The positional arguments of `types.CodeType`, in the fixed order. */
    function CodeArgs(): (r: seq<Value>)
      reads this
      ensures |r| == |CodeFields|
      ensures forall i :: 0 <= i < |r| ==> r[i] == Get(CodeFields[i])
    {
      [argcount, kwonlyargcount, nlocals, stacksize, flags, code, consts, names, varnames,
       filename, name, firstlineno, lnotab, freevars, cellvars]
    }

    /** `as_code()`: a TypeError from the constructor becomes ParseError. */
    function AsCode(codeType: seq<Value> -> Outcome<Value>): (r: Outcome<Value>)
      reads this
      ensures codeType(CodeArgs()).Return? ==> r == codeType(CodeArgs())
      ensures codeType(CodeArgs()).Raise? && IsTypeError(codeType(CodeArgs()).exc) ==>
        r == Raise(Structured(ParseError))
      ensures codeType(CodeArgs()).Raise? && !IsTypeError(codeType(CodeArgs()).exc) ==>
        r == codeType(CodeArgs())
    {
      match codeType(CodeArgs())
      case Return(co) => Return(co)
      case Raise(e) => if IsTypeError(e) then Raise(Structured(ParseError)) else Raise(e)
    }
  }

  /** No code field shares the name of `defaults`. */
  lemma DefaultsKeyApart()
    ensures forall f :: f != Defaults ==> Key(f) != Key(Defaults)
  {
    forall f | f != Defaults ensures Key(f) != Key(Defaults) {
      match f
      case ArgCount =>
      case KwOnlyArgCount =>
      case NLocals =>
      case StackSize =>
      case Flags =>
      case Codestring =>
      case Consts =>
      case Names =>
      case VarNames =>
      case FileName =>
      case Name =>
      case FirstLineNo =>
      case LnoTab =>
      case FreeVars =>
      case CellVars =>
    }
  }

  /** The display holds exactly the code fields' names. */
  lemma CodeEntriesKeys(c: Code)
    ensures forall f :: Key(f) in c.CodeEntries() <==> f != Defaults
    ensures forall k :: k in c.CodeEntries() ==> exists f :: Key(f) == k
  {
  }

  /** Each code field sits under its own name in the display. */
  lemma CodeEntriesValues(c: Code)
    ensures forall f :: f != Defaults ==> c.CodeEntries()[Key(f)] == c.Get(f)
  {
    var m := c.CodeEntries();
    forall f | f != Defaults ensures Key(f) in m && m[Key(f)] == c.Get(f) {
      match f
      case ArgCount =>
      case KwOnlyArgCount =>
      case NLocals =>
      case StackSize =>
      case Flags =>
      case Codestring =>
      case Consts =>
      case Names =>
      case VarNames =>
      case FileName =>
      case Name =>
      case FirstLineNo =>
      case LnoTab =>
      case FreeVars =>
      case CellVars =>
    }
  }

  /**
    The required and default field rules: a record validates exactly when
    every field the raw data gives a value is acceptable, and every required
    field it gives none has a default other than None, which only `name`
    has. A missing or None `kwonlyargcount` falls back to 0, `name` to
    '<string>' and `defaults` to None.
   */
  lemma ValidatesFromRaw(c: Code, raw: map<string, Value>)
    requires c.Built(raw)
    ensures c.Validates() <==>
      (forall f :: Given(raw, f) ==> Accepts(f, raw[Key(f)]))
      && (forall f :: !Given(raw, f) ==> !Required(f) || f == Name)
    ensures !Given(raw, KwOnlyArgCount) ==> c.kwonlyargcount == Int(0)
    ensures !Given(raw, Name) ==> c.name == Text("<string>")
    ensures !Given(raw, Defaults) ==> c.defaults == PyNone
  {
    assert c.Get(KwOnlyArgCount) == c.kwonlyargcount;
    assert c.Get(Name) == c.name;
    assert c.Get(Defaults) == c.defaults;
    if c.Validates() {
      forall f | !Given(raw, f)
        ensures !Required(f) || f == Name
      {
        assert Accepts(f, c.Get(f));
      }
      forall f | Given(raw, f)
        ensures Accepts(f, raw[Key(f)])
      {
        assert c.Get(f) == RawField(raw, f);
      }
    }
    if && (forall f :: Given(raw, f) ==> Accepts(f, raw[Key(f)]))
       && (forall f :: !Given(raw, f) ==> !Required(f) || f == Name)
    {
      forall f ensures Accepts(f, c.Get(f)) {
        assert c.Get(f) == RawField(raw, f);
        if Given(raw, f) {
          assert Accepts(f, raw[Key(f)]);
        } else {
          assert f == KwOnlyArgCount || f == Name || f == Defaults;
          assert Accepts(f, Default(f));
        }
      }
    }
  }

  /** A record whose `kwonlyargcount` is None validates when every other field is acceptable: it becomes 0. */
  lemma KwOnlyArgCountMayBeNone(c: Code, raw: map<string, Value>)
    requires c.Built(raw) && Key(KwOnlyArgCount) in raw && raw[Key(KwOnlyArgCount)] == PyNone
    requires forall f :: f != KwOnlyArgCount ==> Given(raw, f) && Accepts(f, raw[Key(f)])
    ensures c.kwonlyargcount == Int(0) && c.Validates()
  {
    ValidatesFromRaw(c, raw);
  }

  /** `as_code` hands over each field but `defaults` exactly once. */
  lemma CodeFieldsComplete()
    ensures forall f :: f in CodeFields <==> f != Defaults
    ensures forall i, j :: 0 <= i < j < |CodeFields| ==> CodeFields[i] != CodeFields[j]
  {
  }

  /**
    A record with a None field cannot become a code object when the
    constructor rejects None with a TypeError: `as_code` raises ParseError,
    code -32700.
   */
  lemma NoneFieldIsParseError(c: Code, codeType: seq<Value> -> Outcome<Value>, f: FieldName)
    requires f != Defaults && c.Get(f) == PyNone
    requires forall args: seq<Value>, i :: 0 <= i < |args| && args[i] == PyNone ==>
      codeType(args).Raise? && IsTypeError(codeType(args).exc)
    ensures c.AsCode(codeType) == Raise(Structured(ParseError))
    ensures c.AsCode(codeType).exc.err.Code() == Int(-32700)
  {
    CodeFieldsComplete();
    assert f in CodeFields;
    var i :| 0 <= i < |CodeFields| && CodeFields[i] == f;
    assert c.CodeArgs()[i] == PyNone;
  }

  /**
    `Code.from_json(text)`'s decoding step: malformed JSON becomes ParseError;
    otherwise every decoded object has passed through `json_code_hook`.
   */
  function DecodeRecord(text: string, codec: Json.Codec): (r: Outcome<Value>)
    ensures codec.loads(text).None? <==> r == Raise(Structured(ParseError))
    ensures codec.loads(text).Some? ==> r == Return(Encoders.Hooked(codec.loads(text).value))
  {
    match codec.loads(text)
    case None => Raise(Structured(ParseError))
    case Some(v) => Return(Encoders.Hooked(v))
  }

  /**
    `Code.from_json(text)`: a decoded object becomes the raw data of a new
    record, and a decoded `null` is `raw_data=None`, which schematics reads as
    no data at all, so every field takes its default. Any other document fails
    the record's conversion with `notARecord`.
   */
  method FromJson(text: string, codec: Json.Codec, notARecord: Fault) returns (out: Outcome<Code>)
    ensures DecodeRecord(text, codec).Raise? ==> out == Raise(Structured(ParseError))
    ensures DecodeRecord(text, codec).Return? && DecodeRecord(text, codec).value.Dict? ==>
      out.Return? && fresh(out.value) && out.value.Built(DecodeRecord(text, codec).value.entries)
    ensures DecodeRecord(text, codec).Return? && DecodeRecord(text, codec).value.PyNone? ==>
      out.Return? && fresh(out.value) && out.value.Built(map[])
    ensures var d := DecodeRecord(text, codec);
      d.Return? && !d.value.Dict? && !d.value.PyNone? ==> out == Raise(Foreign(notARecord))
  {
    var parsed := DecodeRecord(text, codec);
    if parsed.Raise? {
      return Raise(parsed.exc);
    }
    var raw: map<string, Value>;
    if parsed.value.PyNone? {
      raw := map[];
    } else if parsed.value.Dict? {
      raw := parsed.value.entries;
    } else {
      return Raise(Foreign(notARecord));
    }
    var c := new Code.FromRaw(raw);
    out := Return(c);
  }

  /**
    `Code.from_file(path)`: a file that cannot be read becomes
    FunctionNotFoundError naming the path; otherwise `from_json` decides,
    its ParseError included.
   */
  method FromFile(path: Value, readFile: Value -> Option<string>, codec: Json.Codec, notARecord: Fault)
    returns (out: Outcome<Code>)
    ensures readFile(path).None? ==> out == Raise(Structured(FunctionNotFoundError(path)))
    ensures readFile(path).None? ==>
      out.exc.err.Code() == Int(-32601) && out.exc.err.Data() == Dict(map["function" := path])
    ensures readFile(path).Some? && DecodeRecord(readFile(path).value, codec).Raise? ==>
      out == Raise(Structured(ParseError))
    ensures readFile(path).Some? ==>
      var d := DecodeRecord(readFile(path).value, codec);
      d.Return? && d.value.Dict? ==> out.Return? && fresh(out.value) && out.value.Built(d.value.entries)
    ensures readFile(path).Some? ==>
      var d := DecodeRecord(readFile(path).value, codec);
      d.Return? && d.value.PyNone? ==> out.Return? && fresh(out.value) && out.value.Built(map[])
    ensures readFile(path).Some? ==>
      var d := DecodeRecord(readFile(path).value, codec);
      d.Return? && !d.value.Dict? && !d.value.PyNone? ==> out == Raise(Foreign(notARecord))
  {
    var text := readFile(path);
    if text.None? {
      return Raise(Structured(FunctionNotFoundError(path)));
    }
    out := FromJson(text.value, codec, notARecord);
  }

  /** What a field becomes after `json.dumps` and `json.loads` with `json_code_hook`. */
  function Reloaded(v: Value): Value
    requires Json.Encodable(v)
  {
    Encoders.Converted(Encoders.Hooked(Json.JsonView(v)))
  }

  /** None, a boolean, an integer or text. */
  predicate Scalar(v: Value) {
    v.PyNone? || v.Bool? || v.Int? || v.Text?
  }

  /**
    The field values that survive the trip unchanged: scalars other than
    text, UTF-8 byte strings, and tuples of scalars. Text comes back as its
    UTF-8 bytes.
   */
  predicate Survives(v: Value) {
    || v.PyNone? || v.Bool? || v.Int?
    || (v.Bytes? && Utf8.IsUtf8(v.bs))
    || (v.Tuple? && forall i :: 0 <= i < |v.items| ==> Scalar(v.items[i]))
  }

  lemma SurvivorsReload(v: Value)
    requires Survives(v)
    ensures Json.Encodable(v) && Reloaded(v) == v
  {
    match v
    case Bytes(bs) =>
      Utf8.EncodeDecode(bs);
    case Tuple(xs) =>
      var view := Json.JsonView(v);
      assert view.items == xs;
      assert Encoders.Hooked(view).items == xs;
    case _ =>
  }

  lemma TextReloadsAsBytes(s: string)
    ensures Json.Encodable(Text(s)) && Reloaded(Text(s)) == Bytes(Utf8.Encode(s))
  {
  }

  /**
    Dumping a dict with a faithful codec and decoding the text as `from_json`
    does gives a dict with the same keys, each value Reloaded.
   */
  lemma DecodeDumped(m: map<string, Value>, codec: Json.Codec, skipkeys: bool)
    requires Json.Faithful(codec)
    requires forall k :: k in m ==> Json.Encodable(m[k])
    ensures codec.dumps(Dict(m), skipkeys).Some?
    ensures var d := DecodeRecord(codec.dumps(Dict(m), skipkeys).value, codec);
      && d.Return? && d.value.Dict? && d.value.entries.Keys == m.Keys
      && (forall k :: k in m ==> d.value.entries[k] == Reloaded(m[k]))
  {
    assert Json.Encodable(Dict(m));
    assert codec.loads(codec.dumps(Dict(m), skipkeys).value) == Some(Json.JsonView(Dict(m)));
  }

  /**
    `from_json(as_json())` reads back the code fields, each as Reloaded says,
    and never `defaults`: the record on the wire is the code-only one whatever
    `only_code` is.
   */
  lemma JsonRoundTrip(c: Code, codec: Json.Codec, onlyCode: bool)
    requires Json.Faithful(codec)
    requires forall f :: f != Defaults ==> Json.Encodable(c.Get(f))
    ensures c.AsJson(onlyCode, codec).Some?
    ensures var d := DecodeRecord(c.AsJson(onlyCode, codec).value, codec);
      && d.Return? && d.value.Dict?
      && (forall f :: Key(f) in d.value.entries <==> f != Defaults)
      && (forall f :: f != Defaults ==> d.value.entries[Key(f)] == Reloaded(c.Get(f)))
  {
    DecodeDumped(c.Record(true), codec, onlyCode);
  }

  /**
    What a record built from raw data holds in field `f` when the data gives
    `v` under its key: `v` itself, or the field's default when `v` is None.
   */
  function Restored(f: FieldName, v: Value): (r: Value)
    ensures v != PyNone ==> r == v
    ensures f != KwOnlyArgCount && f != Name ==> r == v
  {
    if v == PyNone then Default(f) else v
  }

  lemma BuiltField(c: Code, raw: map<string, Value>, f: FieldName)
    requires c.Built(raw) && Key(f) in raw
    ensures c.Get(f) == Restored(f, raw[Key(f)])
  {
    assert c.Get(f) == RawField(raw, f);
  }

  /** When every code field survives, the decoded `as_json` text holds each code field unchanged, and no `defaults`. */
  lemma SurvivingCodeFields(c: Code, codec: Json.Codec, onlyCode: bool)
    requires Json.Faithful(codec)
    requires forall f :: f != Defaults ==> Survives(c.Get(f))
    ensures c.AsJson(onlyCode, codec).Some?
    ensures var d := DecodeRecord(c.AsJson(onlyCode, codec).value, codec);
      && d.Return? && d.value.Dict? && Key(Defaults) !in d.value.entries
      && (forall f :: f != Defaults ==> Key(f) in d.value.entries && d.value.entries[Key(f)] == c.Get(f))
  {
    forall f | f != Defaults ensures Json.Encodable(c.Get(f)) && Reloaded(c.Get(f)) == c.Get(f) {
      SurvivorsReload(c.Get(f));
    }
    JsonRoundTrip(c, codec, onlyCode);
  }

  /**
    After `as_json` and `from_json`, every code field whose value survives
    the trip is restored (a None `kwonlyargcount` or `name` comes back as its
    default), and `defaults` is lost even when `only_code` is False.
   */
  lemma AsJsonLosesDefaults(c: Code, codec: Json.Codec, onlyCode: bool, c2: Code)
    requires Json.Faithful(codec)
    requires forall f :: f != Defaults ==> Survives(c.Get(f))
    requires c.AsJson(onlyCode, codec).Some?
    requires var d := DecodeRecord(c.AsJson(onlyCode, codec).value, codec);
      d.Return? && d.value.Dict? && c2.Built(d.value.entries)
    ensures forall f :: f != Defaults ==> c2.Get(f) == Restored(f, c.Get(f))
    ensures c2.defaults == PyNone
  {
    SurvivingCodeFields(c, codec, onlyCode);
    var raw := DecodeRecord(c.AsJson(onlyCode, codec).value, codec).value.entries;
    forall f | f != Defaults ensures c2.Get(f) == Restored(f, c.Get(f)) {
      BuiltField(c2, raw, f);
    }
    assert c2.Get(Defaults) == RawField(raw, Defaults);
  }

  /**
    With `only_code` forwarded to `as_dict`, `as_json(False)` carries
    `defaults`, and every field that survives the trip, `defaults` included,
    is restored by `from_json` (a None `kwonlyargcount` or `name` as its default).
   */
  lemma ForwardedKeepsDefaults(c: Code, codec: Json.Codec, c2: Code)
    requires Json.Faithful(codec)
    requires forall f :: Survives(c.Get(f))
    requires c.AsJsonForwarded(false, codec).Some?
    requires var d := DecodeRecord(c.AsJsonForwarded(false, codec).value, codec);
      d.Return? && d.value.Dict? && c2.Built(d.value.entries)
    ensures forall f :: c2.Get(f) == Restored(f, c.Get(f))
    ensures c2.defaults == c.defaults
  {
    var m := c.Record(false);
    forall k | k in m ensures Json.Encodable(m[k]) && Reloaded(m[k]) == m[k] {
      var f :| Key(f) == k;
      SurvivorsReload(c.Get(f));
    }
    DecodeDumped(m, codec, false);
    var raw := DecodeRecord(c.AsJsonForwarded(false, codec).value, codec).value.entries;
    forall f ensures c2.Get(f) == Restored(f, c.Get(f)) {
      BuiltField(c2, raw, f);
    }
    assert c2.Get(Defaults) == c2.defaults && c.Get(Defaults) == c.defaults;
  }

  /** `{'args': args, 'kwargs': kwargs}` as `run` records a failed call. */
  function CallParams(args: seq<Value>, kwargs: map<string, Value>): Value {
    Dict(map["args" := Tuple(args), "kwargs" := Dict(kwargs)])
  }

  /** The `Function` model: a code record to rebuild and run. */
  class Function {
    var code: Code

    /** `Function.from_code(code)`: holds the very same record. */
    constructor FromCode(code: Code)
      ensures this.code == code
    {
      this.code := code;
    }

    /** `get_default_env()`: the builtins of the runner's own module. */
    static function GetDefaultEnv(host: Host): (r: map<string, Value>)
      ensures r.Keys == {"__builtins__"} && r["__builtins__"] == host.builtins
    {
      map["__builtins__" := host.builtins]
    }

    /** The arguments `build_fn(**kwargs)` gives `types.FunctionType`, the code object aside. */
    static function Parts(co: Value, globals: map<string, Value>, kwargs: map<string, Value>): FunctionParts {
      FunctionParts(co, globals,
        if "name" in kwargs then kwargs["name"] else Text("fn"),
        if "argdefs" in kwargs then kwargs["argdefs"] else Tuple([]),
        if "closure" in kwargs then kwargs["closure"] else Tuple([]))
    }

    /** What `build_fn` returns once the globals are assembled. */
    function BuildOutcome(globals: map<string, Value>, kwargs: map<string, Value>, host: Host): Outcome<Value>
      reads this, code
    {
      match code.AsCode(host.codeType)
      case Raise(e) => Raise(e)
      case Return(co) => host.functionType(Parts(co, globals, kwargs))
    }

    /**
      `build_fn(globals=..., **kwargs)`: the caller's globals dict, if given,
      gets the default environment written over it in place, before the code
      object is built; without one a fresh dict is used.
     */
    method BuildFn(globals: Option<PyDict>, kwargs: map<string, Value>, host: Host) returns (out: Outcome<Value>)
      modifies if globals.Some? then {globals.value} else {}
      ensures globals.Some? ==> globals.value.entries == old(globals.value.entries) + GetDefaultEnv(host)
      ensures globals.Some? ==> out == BuildOutcome(globals.value.entries, kwargs, host)
      ensures globals.None? ==> out == BuildOutcome(GetDefaultEnv(host), kwargs, host)
    {
      var g: map<string, Value>;
      if globals.Some? {
        globals.value.entries := globals.value.entries + GetDefaultEnv(host);
        g := globals.value.entries;
      } else {
        g := map[] + GetDefaultEnv(host);
        assert g == GetDefaultEnv(host);
      }
      var co := code.AsCode(host.codeType);
      if co.Raise? {
        return Raise(co.exc);
      }
      out := host.functionType(Parts(co.value, g, kwargs));
    }

    /** The keyword arguments `run` passes to `build_fn`. */
    function RunKw(): (kw: map<string, Value>)
      reads this, code
    {
      var kw := map["name" := code.name];
      if code.defaults != PyNone then kw["argdefs" := code.defaults] else kw
    }

    /** What `run(*args, **kwargs)` returns or raises. */
    function RunOutcome(args: seq<Value>, kwargs: map<string, Value>, host: Host): Outcome<Value>
      reads this, code
    {
      match BuildOutcome(GetDefaultEnv(host), RunKw(), host)
      case Raise(e) => Raise(e)
      case Return(fn) =>
        match host.call(fn, args, kwargs)
        case Return(v) => Return(v)
        case Raise(e) =>
          if IsTypeError(e) then
            Raise(Structured(RuntimeError(code.name, CallParams(args, kwargs), Text(e.fault.text))))
          else Raise(e)
    }

    /** `run(*args, **kwargs)`. */
    method Run(args: seq<Value>, kwargs: map<string, Value>, host: Host) returns (out: Outcome<Value>)
      ensures out == RunOutcome(args, kwargs, host)
    {
      var kw := map["name" := code.name];
      if code.defaults != PyNone {
        kw := kw["argdefs" := code.defaults];
      }
      var fn := BuildFn(None, kw, host);
      if fn.Raise? {
        return fn;
      }
      out := host.call(fn.value, args, kwargs);
      if out.Raise? && IsTypeError(out.exc) {
        var params := CallParams(args, kwargs);
        out := Raise(Structured(RuntimeError(kw["name"], params, Text(out.exc.fault.text))));
      }
    }

    /** `__call__(*args, **kwargs)`: the same as `run`. */
    method Call(args: seq<Value>, kwargs: map<string, Value>, host: Host) returns (out: Outcome<Value>)
      ensures out == RunOutcome(args, kwargs, host)
    {
      out := Run(args, kwargs, host);
    }
  }

  /**
    `run` builds the function from exactly: the record's code object, globals
    holding only `__builtins__`, the record's name, its defaults (the empty
    tuple when they are None) and an empty closure.
   */
  lemma RunBuildsWith(f: Function, host: Host)
    requires f.code.AsCode(host.codeType).Return?
    ensures f.BuildOutcome(Function.GetDefaultEnv(host), f.RunKw(), host)
      == host.functionType(FunctionParts(
           f.code.AsCode(host.codeType).value,
           map["__builtins__" := host.builtins],
           f.code.name,
           if f.code.defaults != PyNone then f.code.defaults else Tuple([]),
           Tuple([])))
  {
  }

  /** A build failure, ParseError included, leaves `run` before the call. */
  lemma RunBuildFailure(f: Function, host: Host, args: seq<Value>, kwargs: map<string, Value>)
    requires f.BuildOutcome(Function.GetDefaultEnv(host), f.RunKw(), host).Raise?
    ensures f.RunOutcome(args, kwargs, host) == f.BuildOutcome(Function.GetDefaultEnv(host), f.RunKw(), host)
  {
  }

  /**
    The outcome of a call, once the function is built: a returned value is
    passed through, a TypeError becomes RuntimeError (code -32000) with the
    function name, the arguments and the error text, and every other
    exception propagates unchanged.
   */
  lemma RunMapsCallOutcome(f: Function, host: Host, args: seq<Value>, kwargs: map<string, Value>)
    requires f.BuildOutcome(Function.GetDefaultEnv(host), f.RunKw(), host).Return?
    ensures var fn := f.BuildOutcome(Function.GetDefaultEnv(host), f.RunKw(), host).value;
      var res := host.call(fn, args, kwargs);
      && (res.Return? ==> f.RunOutcome(args, kwargs, host) == res)
      && (res.Raise? && !IsTypeError(res.exc) ==> f.RunOutcome(args, kwargs, host) == res)
      && (res.Raise? && IsTypeError(res.exc) ==>
            var out := f.RunOutcome(args, kwargs, host);
            && out.Raise? && out.exc.Structured? && out.exc.err.RuntimeError?
            && out.exc.err.Code() == Int(-32000)
            && out.exc.err.Data() == Dict(map[
                 "function" := f.code.name,
                 "params" := Dict(map["args" := Tuple(args), "kwargs" := Dict(kwargs)]),
                 "trace" := Text(res.exc.fault.text)]))
  {
  }
}
