# smrunner, modelled in Dafny

smrunner ships a compiled Python function as a JSON record, rebuilds it and
runs it. This project models the deterministic layers around the interpreter
and proves properties of them:

- **Code record and runner** (`fn.dfy`, module `Fn`). The `Code` record is a class with
  15 code-object fields plus the optional `defaults`, and the model follows its
  required and default field rules. Around it sit:
  - `from_function`, the `co_X` to `X` renaming;
  - `parse_args`, `as_dict` and `as_json`;
  - `as_code`, with its fixed argument order;
  - `from_json` and `from_file`;
  - the `Function` class, with `get_default_env`, `build_fn`, `run` and `__call__`.

  The interpreter primitives are the functions of a `Host` value: `types.CodeType`,
  `types.FunctionType` and the call itself. Each one returns a value or raises.
- **Error taxonomy** (`errors.dfy`, module `Errors`). A datatype covers `BaseError` and the five
  named kinds. Each has a code, a message and a data payload, and the model covers
  `as_python`, `str(e)` and `as_json`. The model also relates the codes to section 5.1 of the
  JSON-RPC 2.0 Specification.
- **Response envelope** (`response.dfy`, module `Response`). This is the JSON-RPC 2.0 response
  object of section 5 of that specification, with `as_result`, `as_error`, `as_dict` and
  `as_json`. The request id is accepted and dropped.
- **Fault inspection** (`utils.dfy`, module `Utils`). This covers the property-name filter
  `is_valid_prop` and `inspect_err`. The exception is given as its class name, its
  `dir`/`getattr` pairs and an optional module name.
- **JSON decode normaliser** (`encoders.dfy`, module `Encoders`). This covers `fix_tuple`, and
  `json_code_hook` as a loop that rewrites a dict object in place.
- **Field validators** (`schema.dfy`, module `Schema`). This covers the exact-type tests of
  `TupleType`, `BytesType`, `LazyDictType`, `LazyDictOrListType` and `DynamicType`.

The model follows the code's target, Python 2. `Text` is `unicode` and `Bytes` is `str`
(`values.dfy`, module `PyValues`). Supporting modules:
- `utf8.dfy`: the UTF-8 encoder and decoder that `.encode('utf8')` and the JSON library use, for
  text made of Unicode scalar values, with both round trips proved.
- `json.dfy`: the JSON library as an abstract `Codec`. Its ghost predicate `Faithful` states what
  `json.loads(json.dumps(v))` gives back for the values `Json.Encodable` describes.
- `numerals.dfy`: the decimal rendering that `'%s' % code` produces, with its parse-back.

`BytesType` appends `unicode` only on Python 2. On Python 3, however, the name `str` denotes the
text type, so both versions accept exactly byte strings and text
(`Schema.BytesTypeSameOnBothVersions`).

## Model

| member | source | states |
|---|---|---|
| Schema.ValidateTuple | smrunner/helpers/schema.py:10-12 | accepts exactly tuples and lists; otherwise fails with "Type must be a tuple" |
| Schema.ValidateBytes | smrunner/helpers/schema.py:19-24 | accepts exactly byte strings and text, on either Python version; otherwise fails with its message |
| Schema.ValidateLazyDict | smrunner/helpers/schema.py:31-33 | accepts exactly dicts |
| Schema.ValidateLazyDictOrList | smrunner/helpers/schema.py:40-42 | accepts exactly dicts and lists; a tuple is rejected |
| Schema.ValidateDynamic | smrunner/helpers/schema.py:50-51 | accepts every value |
| Schema.SubclassInstancesRejected | smrunner/helpers/schema.py:10-42 | an instance of a subclass of a built-in type is an `isinstance` of its base, yet every exact-type validator rejects it |
| Schema.BytesTypeSameOnBothVersions | smrunner/helpers/schema.py:19-24 | the Python version switch does not change what BytesType accepts |
| Utf8.Encode | smrunner/helpers/encoders.py:6 | UTF-8 takes one to four bytes per character |
| Utf8.DecodeEncode | smrunner/helpers/encoders.py:6 | decoding the UTF-8 encoding of a text gives the text back |
| Utf8.EncodeDecode | smrunner/helpers/encoders.py:14-15 | re-encoding the decoding of valid UTF-8 bytes gives the same bytes |
| Numerals.ParseDecimalString | smrunner/errors.py:21 | the decimal text of any integer, negative ones included, parses back to that integer |
| Errors.Error.AsPython | smrunner/errors.py:40-44 | a dict with exactly the keys code, message and data, holding the error's three fields |
| Errors.CodesFollowJsonRpc | smrunner/errors.py:56-123 | each named kind has an integer code whose JSON-RPC 2.0 meaning matches that kind, in both directions, and no two kinds share a code |
| Errors.PayloadShapes | smrunner/errors.py:56-123 | data is None exactly for ParseError and InternalError; otherwise it is a dict with exactly the keys function, params and trace that the kind takes, holding the constructor arguments |
| Errors.RuntimeErrorDefaults | smrunner/errors.py:112-123 | RuntimeError(name) has params and trace None |
| Errors.Framed | smrunner/errors.py:21 | each piece of the `[Error]:%s:%s` format sits at a known position |
| Errors.StrReadsBack | smrunner/errors.py:14-21 | `str(e)` is "[Error]:", then text that parses back to the code, then ":", then the message |
| Errors.AsJsonRoundTrip | smrunner/errors.py:46-53 | with a JSON-native payload, `as_json` succeeds and loads back to `as_python()` |
| Errors.AsJsonTurnsArgsIntoList | smrunner/errors.py:46-53 | with the params dict that `run` builds, the round trip fails because the args tuple comes back as a list |
| Response.Response.AsDict | smrunner/response.py:55-73 | the dict built step by step equals the envelope: jsonrpc, then error or result |
| Response.ResultEnvelope | smrunner/response.py:27-37 | `as_result(_id, d).as_dict()` is exactly {jsonrpc: "2.0", result: d}, also when d is None |
| Response.ErrorEnvelope | smrunner/response.py:40-53 | `as_error(code, message, data).as_dict()` is exactly {jsonrpc: "2.0", error: {code, message, data}}, with no result |
| Response.EnvelopeShape | smrunner/response.py:62-73 | every envelope has jsonrpc and exactly one of result and error; error is there iff the response holds one; there is never an id |
| Response.IdIgnored | smrunner/response.py:27-53 | the id argument changes neither constructor's response |
| Response.AsErrorValidates | smrunner/response.py:9-15 | the error object `as_error` builds validates iff its data is None or a dict |
| Response.ResultJsonRoundTrip | smrunner/response.py:75-82 | a result made of JSON-native values loads back from `as_json` unchanged |
| Encoders.FixTuple | smrunner/helpers/encoders.py:4-7 | text becomes bytes that decode back to it; every other value is returned unchanged |
| Encoders.Converted | smrunner/helpers/encoders.py:12-15 | a list becomes a tuple of the same elements; text becomes its UTF-8 bytes; anything else is kept; the result is never a list or text |
| Encoders.HookMap | smrunner/helpers/encoders.py:10-16 | the same keys, each value converted |
| Encoders.JsonCodeHook | smrunner/helpers/encoders.py:10-16 | the loop rewrites the given dict in place to HookMap of its old contents and returns that same dict |
| Encoders.HookIdempotent | smrunner/helpers/encoders.py:12-15 | a second pass of the hook changes nothing |
| Encoders.Shallow | smrunner/helpers/encoders.py:12-13 | the elements of a converted list are kept as they were, and a nested dict is untouched |
| Encoders.ConvertedIsFixTuple | smrunner/helpers/encoders.py:4-15 | for anything but a list, the hook stores what `fix_tuple` returns |
| Encoders.Hooked | smrunner/fn.py:46 | the object hook applied innermost first keeps dict keys and list lengths, and leaves scalars alone |
| Utils.IsValidPropAsWritten | smrunner/helpers/utils.py:6-20 | on Python 2, true iff the name does not both start and end with "__"; on Python 3, NameError for every name |
| Utils.ReverseDunder | smrunner/helpers/utils.py:18 | ending with "__" is the same as the reversed name starting with "__" |
| Utils.AsWrittenAgreesOnPy2 | smrunner/helpers/utils.py:16-20 | on Python 2, the code as written and the corrected filter agree on every name |
| Utils.AsWrittenRaisesOnPy3 | smrunner/helpers/utils.py:16-17 | on Python 3, the code as written raises for "args", a name the filter is meant to keep |
| Utils.FilterDropsDunders | smrunner/helpers/utils.py:6-20 | the filter drops every bracketed name and keeps every other name except "with_traceback"; it drops that one only on Python 3 |
| Utils.InspectErr | smrunner/helpers/utils.py:23-38 | raises the NameError of the filter exactly on Python 3 when `dir(e)` lists a name; otherwise keeps exactly the filtered properties with their values, sets `__name__` to the class name, has `__module__` iff a module resolves, has no other dunder key, and keeps args |
| Fn.StripCo | smrunner/fn.py:38 | `co_X.replace('co_', '')` is X when X has no further "co_" |
| Fn.CoDataKeys | smrunner/fn.py:38 | the keys of the comprehension are exactly the stripped names of the `co_` attributes |
| Fn.CoDataValues | smrunner/fn.py:38 | when stripped names do not collide, each holds its attribute's value |
| Fn.CoDataFields | smrunner/fn.py:38 | for a code object's attribute names, the comprehension maps exactly each X to the value of co_X |
| Fn.Code.FromRaw | smrunner/fn.py:17-33 | every field holds its raw value, or its default when the key is absent or holds None |
| Fn.ValidatesFromRaw | smrunner/fn.py:17-33 | the record validates iff every field the data gives a non-None value accepts it, and every other field is optional (kwonlyargcount, defaults) or has a default (name); a missing or None kwonlyargcount becomes 0, name '<string>' and defaults None |
| Fn.KwOnlyArgCountMayBeNone | smrunner/fn.py:19 | a record whose kwonlyargcount is None, and whose other fields are acceptable, validates with kwonlyargcount 0 |
| Fn.Code.ParseArgs | smrunner/fn.py:59-61 | defaults takes the argspec's defaults unless they are None; no other field changes |
| Fn.Code.FromFunction | smrunner/fn.py:35-41 | each code field holds the co_ attribute of its name (or its default); defaults is set only from non-None argspec defaults |
| Fn.CodeEntriesKeys | smrunner/fn.py:64-80 | the display has exactly the 15 code-field names |
| Fn.CodeEntriesValues | smrunner/fn.py:64-80 | each code field sits under its own name |
| Fn.Code.Record | smrunner/fn.py:63-83 | the keys are the 15 code fields, plus defaults iff only_code is False; every key is a field's name and holds that field |
| Fn.Code.AsDict | smrunner/fn.py:63-83 | the dict built and then updated with the helper properties equals Record(only_code) |
| Fn.Code.CodeArgs | smrunner/fn.py:92-108 | 15 arguments; the i-th is the field that comes i-th in the fixed order |
| Fn.CodeFieldsComplete | smrunner/fn.py:92-108 | the fixed order lists every field but defaults, each exactly once |
| Fn.Code.AsCode | smrunner/fn.py:88-110 | a built code object is returned; a TypeError becomes ParseError; any other exception propagates |
| Fn.NoneFieldIsParseError | smrunner/fn.py:88-110 | when the constructor rejects None with a TypeError, a record with a None code field gives ParseError, code -32700 |
| Fn.DecodeRecord | smrunner/fn.py:45-48 | malformed JSON gives ParseError, and only malformed JSON; otherwise the hooked document |
| Fn.FromJson | smrunner/fn.py:43-50 | ParseError on bad JSON; a decoded object becomes a fresh record built from it; a decoded null becomes a fresh all-default record; any other document fails conversion |
| Fn.FromFile | smrunner/fn.py:52-57 | an unreadable path gives FunctionNotFoundError, code -32601, data {function: path}; otherwise each outcome of `from_json`: ParseError, a record from an object, an all-default record from null, or the conversion failure |
| Fn.SurvivorsReload | smrunner/fn.py:85-86 | None, booleans, integers, UTF-8 byte strings and tuples of scalars come back unchanged through as_json and from_json |
| Fn.TextReloadsAsBytes | smrunner/fn.py:85-86 | a text field comes back as its UTF-8 bytes |
| Fn.DecodeDumped | smrunner/fn.py:46 | dumping a dict and decoding it as from_json does keeps the keys, each value reloaded |
| Fn.JsonRoundTrip | smrunner/fn.py:85-86 | from_json(as_json(only_code)) has exactly the 15 code keys, each reloaded, whatever only_code is |
| Fn.SurvivingCodeFields | smrunner/fn.py:85-86 | when every code field survives, the decoded text holds each code field unchanged and no defaults |
| Fn.AsJsonLosesDefaults | smrunner/fn.py:85-86 | after the round trip, every surviving code field is restored (a None kwonlyargcount or name as its default) but defaults is None, even for only_code False |
| Fn.ForwardedKeepsDefaults | smrunner/fn.py:85-86 | with only_code forwarded to as_dict, as_json(False) restores every surviving field, defaults included (a None kwonlyargcount or name as its default) |
| Fn.Function.FromCode | smrunner/fn.py:116-118 | the function holds the very record given |
| Fn.Function.GetDefaultEnv | smrunner/fn.py:123-128 | exactly {'__builtins__': the runner's builtins} |
| Fn.Function.BuildFn | smrunner/fn.py:130-137 | given globals are updated in place with the default environment; the function is built from the code object, those globals, the name, argdefs and closure, or a build failure is returned |
| Fn.Function.Run | smrunner/fn.py:139-153 | run's outcome is RunOutcome: build, call, and error mapping |
| Fn.Function.Call | smrunner/fn.py:120-121 | calling the function is running it |
| Fn.RunBuildsWith | smrunner/fn.py:123-145 | run builds from the record's code object, globals holding only `__builtins__`, the record's name, its defaults or the empty tuple, and an empty closure |
| Fn.RunBuildFailure | smrunner/fn.py:136-145 | a build failure, ParseError included, is what run raises, before any call |
| Fn.RunMapsCallOutcome | smrunner/fn.py:146-153 | a returned value passes through; a TypeError becomes RuntimeError -32000 with {function: name, params: {args, kwargs}, trace: str(e)}; other exceptions propagate |

## Left out

- Interpreter primitives: `types.CodeType`, `types.FunctionType` and the call `fn(*args, **kwargs)` are parameters (`Fn.Host`). Argument binding and the executed body are not modelled. `as_code` passes 15 arguments, `kwonlyargcount` second, which is the Python 3 `CodeType` signature; Python 2's `CodeType` takes 14, so on Python 2 every `as_code` raises TypeError and hence ParseError, and `run` never reaches the call. The abstract `Host` admits this but does not force it.
- Fn.Code.Record: `only_code` is a `bool`; fn.py:81 tests `only_code is False` by identity, so `as_dict(0)` or `as_dict(None)` also leaves `defaults` out, which the model does not represent.
- Reflection: `dir`, `getattr`, `inspect.getargspec` and `inspect.getmodule` are not modelled. Their results come in as values: the attribute pairs, the argspec's defaults and the `Fault` record.
- JSON library: `json.dumps`/`json.loads` are the functions of a `Json.Codec`. Their behaviour enters only through the `Json.Faithful` requirement of the lemmas that use it, which speaks only of `Json.Encodable` values; what the library does with floats, instances of subclasses of built-in types and other objects is not modelled.
- Fn.FromFile: the file read is a parameter, `readFile`. Reading is not modelled.
- Fn.FromJson: a decoded `null` is `raw_data=None`, which schematics reads as no data, so the record takes every default (modelled). Any other document that is not an object (a list, a number, a boolean, a string) fails the record's conversion inside schematics; that failure is a given fault, `notARecord`, not a modelled message.
- Fn.Code.FromRaw: schematics conversion (coercing, say, a numeric string into an int) and its rejection of unknown keys are not modelled. Raw values other than None are stored as given, a None value is replaced by the field's default as the schematics 1.1 import loop does, and keys that are not fields are ignored; `validate()` is modelled only as the required/default and type rules (`Fn.ValidatesFromRaw`).
- Fn.Function.FromCode: the `Function` model's own `validate()` (its `code` field is required) is not modelled. The constructor always sets it.
- Errors: each `__init__` sets the fields to None and then overwrites them. The model keeps only the final values.
- Errors.Error: `BaseError(code, message, data)` is modelled with a code that is None or an int and a message that is None or text. Python accepts any value for either, and other values (and so their `'%s'` rendering) are not modelled.
- Errors.Error.Str: Python's `repr` (`__repr__`, errors.py:30-31) is not modelled.
- Literal strings: 'fn', '<string>', str(e), '2.0' and class names are modelled as `Text`, though on Python 2 these literals are byte strings. The validators accept both. The JSON view differs, though: a byte string comes back from `json.loads` as text, so a JSON-native text value stands for what is a byte string in the program, and `Errors.AsJsonRoundTrip` and `Response.ResultJsonRoundTrip` cover it as text.
- Text is limited to Unicode scalar values, the values a Dafny string holds. Python 2 `unicode` can also hold lone surrogates: `u'\ud800'.encode('utf8')` gives the bytes ED A0 80, which Python 2 decodes back and `json.dumps` accepts. `Utf8.IsUtf8`, and so `Json.Encodable`, reject those bytes, and text holding surrogates is not modelled.
- encoders.py: on Python 3 the name `unicode` is unbound, so the hook raises NameError at the first value of any non-empty dict, whatever its type (a list value has already been rewritten to a tuple by line 13); an empty dict is returned untouched. The model is of Python 2, the version the code targets.
- Numbers: Python 2 `int` and `long` are both `Int`, which is unbounded. A `float` is not modelled as a number; it is an `Object` of class float, so no lemma about JSON speaks of it.
- Concurrency, the command-line tool and packaging are not part of this model.
- tests/unit/test_function.py:84-89 expects a NameError raised by the body to come back as RuntimeError with an inspected trace. `run` catches only TypeError and stores `str(e)`, and the model follows the code.

## Findings

| source | as written | input that shows it | evidently intended | confidence | as-written member | corrected member |
|---|---|---|---|---|---|---|
| smrunner/helpers/utils.py:16 | the `with_traceback` test reads `n`, a name bound nowhere | any property name, for example "args", on Python 3: NameError | test the argument `k`, as the docstring says | not executed | Utils.IsValidPropAsWritten (Utils.AsWrittenRaisesOnPy3) | Utils.IsValidProp (Utils.FilterDropsDunders) |
| smrunner/fn.py:86 | `json.dumps(self.as_dict(), only_code)` passes `only_code` as `skipkeys` | `as_json(only_code=False)` on a record whose defaults are (1,): the decoded record has defaults None | `json.dumps(self.as_dict(only_code))` | not executed | Fn.Code.AsJson (Fn.AsJsonLosesDefaults) | Fn.Code.AsJsonForwarded (Fn.ForwardedKeepsDefaults) |
