# py-consul response formatters and URI construction, in Dafny

This project models two sequential pieces of the py-consul HTTP client.

- The formatter callbacks of class `CB` (consul/callback.py). `_status` sorts an HTTP status code into the client's exception taxonomy: BadRequest, ACLDisabled, ACLPermissionDenied, NotFound, ClientError and ConsulException. `bool` reduces a response to a boolean. `json` builds the decoding callback. That callback checks the status, then parses the body. It base64-decodes one field of every list item, takes the `ID` field, keeps only the first element and applies a postprocess function. Last, it pairs the result with the `X-Consul-Index` header.
- The blocking client of consul/std.py. It fixes the base URI `http://host:port` at construction and assembles request URIs. It wraps the `requests` reply into a `Response` and hands that response to a callback in `get` and `put`.

Modules:

- `Wrappers` holds `Option`.
- `Errors` holds `Exception` and `Outcome`. `Exception` is the taxonomy plus the Python built-in exceptions the callbacks can raise. `Outcome` is "returns a value or raises".
- `Text` models `str()` of an integer and ASCII case folding.
- `JsonValue` holds the `Json` values `json.loads` produces, plus `bytes`.
- `Http` holds `base.Response` and the header lookup, which ignores case.
- `Callback` models class `CB`.
- `Std` models consul/std.py.

`json.loads` and `base64.b64decode` are the two function fields of a `Callback.Codecs` value. The URL encoder (`urlencode`) and the `requests` transport are function parameters of `Std.Uri`, `Std.Get` and `Std.Put`. Every property is proved for all such functions.

The decoding callback changes things step by step. `Callback.RunJson` reassigns `data` one step after another, as the source does. `Callback.DecodeItemsInPlace` updates the items of the parsed list in place, in an array. Both methods are proved equal to the pure definitions `Callback.JsonFormat` and `Callback.DecodeAll`, and the lemmas are stated about those definitions. `Callback.Pipeline` with `Callback.RunSteps` is a second definition of the body transform. It lists the enabled steps in the fixed order, and `Callback.TransformRunsPipeline` proves it agrees with `Callback.Transform`.

On some inputs the code does what a reader might not expect, and the model does the same:

- `decode` on a document that is not a list is not a pass-through. `for item in data` iterates a dict's keys, a string's characters or the ints of a bytes value, and none of those has `.get`, so the code raises AttributeError. It raises TypeError for None, booleans and numbers. Only an empty dict, string or bytes value passes unchanged (`Callback.DecodeNonList`).
- `bool` answers false, without raising, for every non-200 code outside [400, 600), including 1xx, 3xx and the other 2xx codes. It also answers false for 404, because `_status` is called with `allow_404=True`.
- The `Response` status code is any integer, not only one in [100, 599]. `_status` treats every code outside [400, 600) alike.

## Model

| member | source | states |
|---|---|---|
| `Text.IntToString` | consul/std.py:15 | `str(n)` is non-empty; it is all digits exactly when `n >= 0`, and a negative value is `-` followed by digits; there are no leading zeros and no `-0` |
| `Text.IntToStringRoundTrip` | consul/std.py:15 | the decimal text of an integer (the port, or the status code in a message) reads back as that integer |
| `Http.HeaderLookupFindsFirstMatch` | consul/callback.py:76 | `headers[name]` finds a value iff some header name equals `name` up to case, and it is the value of the first such header |
| `Http.HeaderLookupIgnoresCase` | consul/callback.py:76 | two spellings of a header name that differ only in case find the same value |
| `Callback.Status` | consul/callback.py:12-27 | `_status` raises only kinds of the client's taxonomy, never a built-in exception |
| `Callback.StatusByCode` | consul/callback.py:14-27 | 400 raises BadRequest(`"<code> <body>"`), 401 ACLDisabled(body), 403 ACLPermissionDenied(body), other 4xx except 404 ClientError(`"<code> <body>"`), any code in [500, 600) ConsulException(`"<code> <body>"`) |
| `Callback.StatusMessageCarriesCode` | consul/callback.py:14-27 | the message of a BadRequest, ClientError or ConsulException is the code's decimal text (which reads back as the code), a space, then the body |
| `Callback.StatusRaisesIff` | consul/callback.py:14-27 | `_status` raises iff the code is in [400, 600) and is not an allowed 404; so 1xx/2xx/3xx and codes from 600 up never raise |
| `Callback.NotFoundIffDisallowed` | consul/callback.py:21-23 | a 404 raises NotFound(body) iff `allow_404` is false; with `allow_404` it returns normally |
| `Callback.Allow404OnlyAffects404` | consul/callback.py:12-27 | `allow_404` changes the outcome of no code other than 404 |
| `Callback.BoolIsTrueExactlyFor200` | consul/callback.py:30-36 | `bool` raises exactly the `_status` errors with 404 allowed (it raises what `_status` raises); it returns true iff the code is 200; a 404 returns false |
| `Callback.DecodeItemsInPlace` | consul/callback.py:62-65 | the in-place loop leaves the array equal to the item-by-item decoding of the list, or raises what the first failing item raises |
| `Callback.RunJson` | consul/callback.py:56-77 | the step-by-step callback returns exactly what the pure definition `JsonFormat` gives: the same value, or the same exception |
| `Callback.DecodeAllPointwise` | consul/callback.py:62-65 | decoding a list succeeds iff every item decodes; the result has the same length and order, and each position holds the decoding of the item there |
| `Callback.DecodeAllStopsAtFirstFailure` | consul/callback.py:63-65 | when item `i` is the first whose decoding raises, the loop raises that item's exception |
| `Callback.DecodeItemReplacesOnlyTheField` | consul/callback.py:64-65 | an item whose field is missing or null is unchanged; otherwise the field becomes the base64 decoding, the item keeps its keys, all other fields are unchanged, and a decoding error is raised as it is |
| `Callback.DecodeItemNeedsDict` | consul/callback.py:63-64 | a list item that is not a dict raises AttributeError (no `.get`) |
| `Callback.FirstOnlyOfList` | consul/callback.py:68-72 | with `one`, an empty list becomes None, a non-empty list becomes its first element, and None stays None |
| `Callback.StatusCheckedFirst` | consul/callback.py:57 | a status error is raised before the body is parsed or decoded |
| `Callback.Allowed404IsAbsent` | consul/callback.py:57-76 | an allowed 404 gives None without parsing the body or running decode, is_id, one or postprocess; with `index` it gives (`X-Consul-Index` header, None), or KeyError when the header is missing |
| `Callback.IndexPairsSameData` | consul/callback.py:75-77 | with `index` the result is the pair (`X-Consul-Index` header, data) of the same data that the bare form returns, and the bare form's errors are unchanged |
| `Callback.PostprocessAppliedLast` | consul/callback.py:73-74 | the postprocess function is applied exactly once, to the result of all the other steps, and is not applied when an earlier step raised |
| `Callback.DefaultOptionsOnlyParse` | consul/callback.py:39-61 | with the defaults of `CB.json()` the callback returns the parsed body as it is, or ValueError when the body is not JSON |
| `Callback.PipelineOrder` | consul/callback.py:61-74 | the enabled steps are decode, then is_id, then one, then postprocess, each at most once and only when its option is set; postprocess, when given, is the last step |
| `Callback.TransformRunsPipeline` | consul/callback.py:60-74 | the body transform equals parsing followed by the ordered list of enabled steps, stopping at the first step that raises |
| `Std.BaseUriRoundTrip` | consul/std.py:15 | the base URI gives back the host and port it was built from, whatever characters the host holds |
| `Std.NewHttpClient` | consul/std.py:12-15 | the client keeps host and port, and its base URI is exactly `"http://" + host + ":" + str(port)`, from which host and port read back |
| `Std.DefaultHttpClient` | consul/std.py:12-15 | the default client has host `127.0.0.1`, port 8500 and base URI `http://127.0.0.1:8500` |
| `Std.Uri` | consul/std.py:21-25 | every URI starts with base URI + path; it is exactly base URI + path iff params are None or empty; otherwise the rest is `?` followed by `urlencode(params)` |
| `Std.ToResponseCopiesFields` | consul/std.py:17-19 | `response(r)` copies status code, headers and text unchanged, so distinct replies give distinct responses |
| `Std.GetUsesOnlyItsRequest` | consul/std.py:27-29 | the result of `get` depends only on the transport's reply to one GET without body of `uri(path, params)`; the callback receives that reply's code, headers and text unchanged and its result or exception is returned as it is |
| `Std.PutUsesOnlyItsRequest` | consul/std.py:31-33 | the result of `put` depends only on the transport's reply to one PUT carrying `data` to `uri(path, params)`; the callback receives that reply's code, headers and text unchanged and its result or exception is returned as it is |
| `Std.GetJsonRaisesStatusError` | consul/std.py:27-29 | a `get` formatted by any `CB.json(...)` raises the reply's status error whenever `_status` raises one |
| `Std.UriAsWrittenRaisesWithParams` | consul/std.py:21-25 | as written, `uri` raises AttributeError on Python 3 (`urllib` has no `urlencode`) exactly when the params are non-empty; for every such params the intended `uri` appends `?` and the encoded params |
| `Std.UriAsWrittenAgreesWithoutParams` | consul/std.py:21-24 | without params, `uri` as written and the intended `uri` return the same URI |
| `Std.PutBoolIsTrueIff200` | consul/std.py:31-33 | a `put` formatted by `CB.bool()` returns true iff the server answered 200, and raises iff the code is in [400, 600) and is not 404 |
| `Std.GetJsonMissingKeyIsNone` | consul/std.py:27-29 | a `get` formatted by a `CB.json` that allows 404 and has no index answers a 404 with None, whatever the body |

## Findings

| source | as written | input that shows it | evidently intended | confidence | as-written member | corrected member |
|---|---|---|---|---|---|---|
| consul/std.py:25 | `urllib.urlencode(params)` after `import urllib`; the package is Python 3 (f-strings in consul/callback.py, `async def` in consul/aio.py), where `urllib` has no `urlencode` attribute, so `uri` raises AttributeError | any non-empty params, e.g. `[("recurse", "1")]` | `urllib.parse.urlencode(params)`: return base URI + path + `?` + the encoded params | high; not executed | `Std.UriAsWritten` (with `Std.UriAsWrittenRaisesWithParams`) | `Std.Uri` |

## Left out

- consul/aio.py is not part of this model. It holds the aiohttp session, the connection pool, the event loop, `ClientTimeout`, `close` and the async `_request`. Its rule that status 599 raises `Timeout` before the callback runs belongs to that transport, so `Callback.Status` maps 599 to ConsulException, as `_status` does.
- Header construction (`build_header`), `base.HTTPClient`, `base.Response` and `consul.exceptions` are not part of this model. `Response` and the exception kinds are this model's own datatypes. So is the auth token, which `Std.Uri` never receives.
- `json.loads`, `base64.b64decode`, `urllib.urlencode` and the `requests` calls are parameters. Exceptions that the transport raises, such as connection errors, are not modelled.
- Std.Uri: gives the evidently intended behaviour of `urllib.parse.urlencode`; the code as written raises AttributeError on Python 3 for non-empty params, which only `Std.UriAsWritten` models (see Findings). `Std.Get` and `Std.Put` use `Std.Uri`.
- JSON numbers are integers only (`JNumber`); floats are not modelled.
- `JDict` is a map, so a dict's key order is not modelled; no step of the formatter observes it.
- Header names are folded ASCII-only. When a header name occurs more than once, `Http.HeaderLookup` takes the first value; how `requests` and aiohttp combine repeated headers is not modelled.
- postprocess is a total function from `Json` to `Json`. A postprocess that raises, or that returns a Python value with no `Json` counterpart, is not modelled.
- The port is an integer formatted with `str()`. A port given as some other Python object is not modelled.
- The list that `json.loads` returns is fresh, so nothing else aliases it. `Callback.DecodeItemsInPlace` updates each dict by replacing its array element, so aliasing between list items is not modelled.
- tests/conftest.py (starting a server, finding ports, polling) and setup.py are packaging and process management, not part of this model. The long-poll blocking behaviour exercised in tests/test_aio.py is enforced by the server.
