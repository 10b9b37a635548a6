/**
  The error taxonomy (smrunner/errors.py). Every error has a code, a message
  and a data payload; the five named kinds fix the first two and shape the
  third from their constructor arguments. The codes are the ones section 5.1
  of the JSON-RPC 2.0 Specification reserves.
 */
module Errors {
  import opened PyValues
  import Numerals
  import Json

  datatype Error =
      /** BaseError(code=None, message=None, data=None), usable directly. */
    | BaseError(code: Option<int> := None, message: Option<string> := None, data: Value := PyNone)
    | ParseError
    | FunctionNotFoundError(fnName: Value)
    | InvalidParamsError(fnName: Value, fnParams: Value)
    | InternalError
    | RuntimeError(fnName: Value, fnParams: Value := PyNone, fnTrace: Value := PyNone)
  {
    /** The `code` attribute, as each constructor leaves it. */
    function Code(): Value {
      match this
      case BaseError(c, _, _) => if c.Some? then Int(c.value) else PyNone
      case ParseError => Int(-32700)
      case FunctionNotFoundError(_) => Int(-32601)
      case InvalidParamsError(_, _) => Int(-32602)
      case InternalError => Int(-32603)
      case RuntimeError(_, _, _) => Int(-32000)
    }

    function MessageText(): Option<string> {
      match this
      case BaseError(_, m, _) => m
      case ParseError => Some("Parse error.")
      case FunctionNotFoundError(_) => Some("Function not found error.")
      case InvalidParamsError(_, _) => Some("Invalid params error.")
      case InternalError => Some("Internal error.")
      case RuntimeError(_, _, _) => Some("Runtime error.")
    }

    /** The `message` attribute. */
    function Message(): Value {
      if MessageText().Some? then Text(MessageText().value) else PyNone
    }

    /** The `data` attribute. */
    function Data(): Value {
      match this
      case BaseError(_, _, d) => d
      case ParseError => PyNone
      case FunctionNotFoundError(f) => Dict(map["function" := f])
      case InvalidParamsError(f, p) => Dict(map["function" := f, "params" := p])
      case InternalError => PyNone
      case RuntimeError(f, p, t) => Dict(map["function" := f, "params" := p, "trace" := t])
    }

    /** `as_python()`: the three fields and nothing else. */
    function AsPython(): (r: Value)
      ensures r.Dict? && r.entries.Keys == {"code", "message", "data"}
      ensures r.entries["code"] == Code() && r.entries["message"] == Message()
      ensures r.entries["data"] == Data()
    {
      Dict(map["code" := Code(), "message" := Message(), "data" := Data()])
    }

    /** `str(e)`: `'[Error]:%s:%s' % (code, message)`, where None prints as "None". */
    function Str(): string {
      var code := if Code().Int? then Numerals.DecimalString(Code().i) else "None";
      var message := if MessageText().Some? then MessageText().value else "None";
      "[Error]:" + code + ":" + message
    }

    /** `as_json()`: `json.dumps(as_python())`; None when the library raises. */
    function AsJson(codec: Json.Codec): Option<string> {
      codec.dumps(AsPython(), false)
    }
  }

  predicate IsNamedKind(e: Error) {
    !e.BaseError?
  }

  /** An exception in flight: one of the taxonomy's, or one raised by code outside the model. */
  datatype Raised = Structured(err: Error) | Foreign(fault: Fault)

  /** `except TypeError` catches it. */
  predicate IsTypeError(r: Raised) {
    r.Foreign? && r.fault.isTypeError
  }

  /** What a Python call does: return a value or raise. */
  datatype Outcome<+T> = Return(value: T) | Raise(exc: Raised)

  /**
    The meaning section 5.1 of the JSON-RPC 2.0 Specification gives a code:
    the five pre-defined errors, the server-error range -32099..-32000 and the
    rest of the reserved range -32768..-32000; None outside it.
   */
  function JsonRpcMeaning(code: int): Option<string> {
    if code == -32700 then Some("Parse error")
    else if code == -32600 then Some("Invalid Request")
    else if code == -32601 then Some("Method not found")
    else if code == -32602 then Some("Invalid params")
    else if code == -32603 then Some("Internal error")
    else if -32099 <= code <= -32000 then Some("Server error")
    else if -32768 <= code <= -32000 then Some("Reserved")
    else None
  }

  /**
    Each named kind carries the JSON-RPC code whose meaning matches it: a
    parse failure, an unknown function (JSON-RPC's "method"), invalid
    parameters, an internal failure, and a fault of the executed function in
    the implementation-defined server-error range. No two kinds share a code.
   */
  lemma CodesFollowJsonRpc(e: Error, other: Error)
    requires IsNamedKind(e) && IsNamedKind(other)
    ensures e.Code().Int?
    ensures e.ParseError? <==> JsonRpcMeaning(e.Code().i) == Some("Parse error")
    ensures e.FunctionNotFoundError? <==> JsonRpcMeaning(e.Code().i) == Some("Method not found")
    ensures e.InvalidParamsError? <==> JsonRpcMeaning(e.Code().i) == Some("Invalid params")
    ensures e.InternalError? <==> JsonRpcMeaning(e.Code().i) == Some("Internal error")
    ensures e.RuntimeError? <==> JsonRpcMeaning(e.Code().i) == Some("Server error")
    ensures other.Code() == e.Code() ==>
      (other.ParseError? == e.ParseError?
       && other.FunctionNotFoundError? == e.FunctionNotFoundError?
       && other.InvalidParamsError? == e.InvalidParamsError?
       && other.InternalError? == e.InternalError? && other.RuntimeError? == e.RuntimeError?)
  {
  }

  /**
    The payload of each named kind: None for ParseError and InternalError, and
    otherwise a dict holding exactly the constructor's arguments under
    `function`, `params` and `trace`.
   */
  lemma PayloadShapes(e: Error)
    requires IsNamedKind(e)
    ensures (e.ParseError? || e.InternalError?) <==> e.Data() == PyNone
    ensures e.FunctionNotFoundError? ==>
      (e.Data().entries.Keys == {"function"} && e.Data().entries["function"] == e.fnName)
    ensures e.InvalidParamsError? ==>
      (e.Data().entries.Keys == {"function", "params"}
       && e.Data().entries["function"] == e.fnName && e.Data().entries["params"] == e.fnParams)
    ensures e.RuntimeError? ==>
      (e.Data().entries.Keys == {"function", "params", "trace"}
       && e.Data().entries["function"] == e.fnName && e.Data().entries["params"] == e.fnParams
       && e.Data().entries["trace"] == e.fnTrace)
  {
  }

  /** RuntimeError(name) leaves `params` and `trace` None. */
  lemma RuntimeErrorDefaults(name: Value)
    ensures RuntimeError(name).Data() == Dict(map["function" := name, "params" := PyNone, "trace" := PyNone])
  {
  }

  /**
    `str(e)` reads back: after the "[Error]:" prefix come the decimal digits of
    the code, a colon, and the message.
   */
  lemma StrReadsBack(e: Error)
    requires e.Code().Int? && e.MessageText().Some?
    ensures var s := e.Str(); var k := |Numerals.DecimalString(e.Code().i)|;
      |s| == 9 + k + |e.MessageText().value| && s[..8] == "[Error]:"
      && Numerals.ParseDecimal(s[8..8 + k]) == Some(e.Code().i)
      && s[8 + k] == ':' && s[9 + k..] == e.MessageText().value
  {
    var d := Numerals.DecimalString(e.Code().i);
    Framed(d, e.MessageText().value);
    Numerals.ParseDecimalString(e.Code().i);
  }

  /** The pieces of `'[Error]:%s:%s' % (c, m)` sit where they were put. */
  lemma Framed(c: string, m: string)
    ensures var s := "[Error]:" + c + ":" + m;
      |s| == 9 + |c| + |m| && s[..8] == "[Error]:" && s[8..8 + |c|] == c
      && s[8 + |c|] == ':' && s[9 + |c|..] == m
  {
    var s := "[Error]:" + c + ":" + m;
    assert s[8..8 + |c|] == c;
    assert s[9 + |c|..] == m;
  }

  /**
    `json.loads(e.as_json()) == e.as_python()` whenever the payload is made of
    JSON-native values: the three keys, the code and the message are.
   */
  lemma AsJsonRoundTrip(e: Error, codec: Json.Codec)
    requires Json.Faithful(codec) && Json.Native(e.Data())
    ensures e.AsJson(codec).Some?
    ensures codec.loads(e.AsJson(codec).value) == Some(e.AsPython())
  {
    assert Json.Native(e.AsPython());
    Json.NativeRoundTrip(codec, e.AsPython(), false);
  }

  /**
    The round trip fails for a RuntimeError whose params hold the tuple of
    positional arguments `run` builds (even an empty one): it comes back as a
    list.
   */
  lemma AsJsonTurnsArgsIntoList(e: Error, codec: Json.Codec, args: seq<Value>, kwargs: map<string, Value>)
    requires Json.Faithful(codec)
    requires e.RuntimeError? && e.fnParams == Dict(map["args" := Tuple(args), "kwargs" := Dict(kwargs)])
    requires Json.Encodable(e.AsPython())
    ensures e.AsJson(codec).Some?
    ensures codec.loads(e.AsJson(codec).value) != Some(e.AsPython())
  {
    var p := e.AsPython();
    var params := p.entries["data"].entries["params"];
    assert params.entries["args"] == Tuple(args);
    assert !Json.Native(params);
    assert Json.Native(p) ==> Json.Native(p.entries["data"]);
    assert Json.Native(p.entries["data"]) ==> Json.Native(params);
    assert codec.loads(codec.dumps(p, false).value) == Some(Json.JsonView(p));
  }
}
