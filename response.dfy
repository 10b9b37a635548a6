/**
  The response envelope (smrunner/response.py): a JSON-RPC 2.0 response
  object, section 5 of the JSON-RPC 2.0 Specification, holding either a
  result or an error. Both constructors accept a request id and drop it, so
  the envelope never has the `id` member section 5 requires.
 */
module Response {
  import opened PyValues
  import Schema
  import Json

  /** The error object: `code` and `message` are required, `data` must be a dict when set. */
  datatype ErrorModel = ErrorModel(code: Value, message: Value, data: Value)
  {
    predicate Validates() {
      && code != PyNone
      && message != PyNone
      && (data == PyNone || Schema.ValidateLazyDict(data).None?)
    }
  }

  /** `jsonrpc` defaults to "2.0"; `error` is None for a result response. */
  datatype Response = Response(jsonrpc: string, error: Option<ErrorModel>, result: Value)
  {
    /** What `as_dict()` returns: `jsonrpc`, then the error object if there is one, else the result. */
    function Envelope(): map<string, Value> {
      var data := map["jsonrpc" := Text(jsonrpc)];
      if error.Some? then
        data["error" := Dict(map["code" := error.value.code, "message" := error.value.message,
                                 "data" := error.value.data])]
      else
        data["result" := result]
    }

    /** `as_dict()`: builds the dict and inserts either the error or the result. */
    method AsDict() returns (data: map<string, Value>)
      ensures data == Envelope()
    {
      data := map["jsonrpc" := Text(jsonrpc)];
      if error.Some? {
        data := data["error" := Dict(map["code" := error.value.code, "message" := error.value.message,
                                         "data" := error.value.data])];
      } else {
        data := data["result" := result];
      }
    }

    /** `as_json()`: `json.dumps(as_dict())`; None when the library raises. */
    function AsJson(codec: Json.Codec): Option<string> {
      codec.dumps(Dict(Envelope()), false)
    }
  }

  /** `Response.as_result(_id, data)`: the id is ignored. */
  function AsResult(id: Value := PyNone, data: Value := PyNone): Response {
    Response("2.0", None, data)
  }

  /** `Response.as_error(code, message, data, _id)`: the id is ignored. */
  function AsError(code: int, message: string, data: Value := PyNone, id: Value := PyNone): Response {
    Response("2.0", Some(ErrorModel(Int(code), Text(message), data)), PyNone)
  }

  /** A result response is exactly `{'jsonrpc': '2.0', 'result': data}`, also when data is None. */
  lemma ResultEnvelope(id: Value, data: Value)
    ensures AsResult(id, data).Envelope() == map["jsonrpc" := Text("2.0"), "result" := data]
  {
  }

  /** An error response is exactly `{'jsonrpc': '2.0', 'error': {code, message, data}}`, with no result. */
  lemma ErrorEnvelope(code: int, message: string, data: Value, id: Value)
    ensures AsError(code, message, data, id).Envelope()
      == map["jsonrpc" := Text("2.0"),
             "error" := Dict(map["code" := Int(code), "message" := Text(message), "data" := data])]
  {
  }

  /**
    Every envelope has `jsonrpc` and exactly one of `result` and `error`, and
    no `id`; the responses the two constructors build say "2.0".
   */
  lemma EnvelopeShape(r: Response)
    ensures "jsonrpc" in r.Envelope() && r.Envelope()["jsonrpc"] == Text(r.jsonrpc)
    ensures ("result" in r.Envelope()) != ("error" in r.Envelope())
    ensures "error" in r.Envelope() <==> r.error.Some?
    ensures "id" !in r.Envelope()
    ensures |r.Envelope()| == 2
  {
  }

  /** The id has no effect on either constructor. */
  lemma IdIgnored(id1: Value, id2: Value, code: int, message: string, data: Value)
    ensures AsResult(id1, data) == AsResult(id2, data)
    ensures AsError(code, message, data, id1) == AsError(code, message, data, id2)
  {
  }

  /** The error object `as_error` builds validates exactly when its data is None or a dict. */
  lemma AsErrorValidates(code: int, message: string, data: Value, id: Value)
    ensures AsError(code, message, data, id).error.Some?
    ensures AsError(code, message, data, id).error.value.Validates() <==> data.PyNone? || data.Dict?
  {
  }

  /** A result made of JSON-native values comes back from `json.loads(as_json())` unchanged. */
  lemma ResultJsonRoundTrip(codec: Json.Codec, id: Value, data: Value)
    requires Json.Faithful(codec) && Json.Native(data)
    ensures AsResult(id, data).AsJson(codec).Some?
    ensures codec.loads(AsResult(id, data).AsJson(codec).value)
      == Some(Dict(map["jsonrpc" := Text("2.0"), "result" := data]))
  {
    var env := Dict(AsResult(id, data).Envelope());
    assert env == Dict(map["jsonrpc" := Text("2.0"), "result" := data]);
    assert Json.Native(env);
    Json.NativeRoundTrip(codec, env, false);
  }
}
