/**
 * The formatter callbacks of class `CB`: functions from a Response to a
 * result or a raised exception. `Status` sorts status codes into the error
 * taxonomy, `Bool` reduces a response to a boolean and `JsonFormat` is the
 * decoding formatter built by `CB.json`, whose steps run in a fixed order:
 * parse, base64-decode one field of every item, take the `ID`, take the
 * first element, postprocess, pair with the index header.
 *
 * `json.loads` and `base64.b64decode` are library calls; they are the two
 * functions of a Codecs value, over which every definition and lemma here
 * is stated.
 */
module Callback {
  import opened Wrappers
  import opened Errors
  import opened Text
  import opened JsonValue
  import opened Http

  /** The library functions the callbacks call: `json.loads` and `base64.b64decode` (None when they raise ValueError). */
  datatype Codecs = Codecs(loads: string -> Option<Json>, b64decode: seq<bv8> -> Option<seq<bv8>>)

  /** The keyword options of `CB.json`; `decode` is the name of the field to base64-decode, or None for `False`. */
  datatype JsonOptions = JsonOptions(
    postprocess: Option<Json -> Json>,
    allow404: bool,
    one: bool,
    decode: Option<string>,
    isId: bool,
    index: bool)

  /** The defaults of `CB.json`. */
  function DefaultJsonOptions(): JsonOptions {
    JsonOptions(None, true, false, None, false, false)
  }

  /** What a decoding formatter returns: the bare data, or the pair (index header, data). */
  datatype Formatted = Bare(data: Json) | Indexed(index: string, data: Json)

  const IndexHeader := "X-Consul-Index"

  // ---------------------------------------------------------------------
  // Status interpretation

  /** The message `f"{response.code} {response.body}"`. */
  function CodeAndBody(response: Response): string {
    IntToString(response.code) + " " + response.body
  }

  /** `CB._status`: the exception it raises, or None when it returns normally. */
  function Status(response: Response, allow404: bool): (r: Option<Exception>)
    ensures r.Some? ==> r.value.IsStatusError()
  {
    var code := response.code;
    if 400 <= code < 500 then
      if code == 400 then Some(BadRequest(CodeAndBody(response)))
      else if code == 401 then Some(ACLDisabled(response.body))
      else if code == 403 then Some(ACLPermissionDenied(response.body))
      else if code == 404 then (if !allow404 then Some(NotFound(response.body)) else None)
      else Some(ClientError(CodeAndBody(response)))
    else if 500 <= code < 600 then Some(ConsulException(CodeAndBody(response)))
    else None
  }

  /** The kind raised for each status code, and what it carries. */
  lemma StatusByCode(response: Response, allow404: bool)
    ensures response.code == 400 ==> Status(response, allow404) == Some(BadRequest(CodeAndBody(response)))
    ensures response.code == 401 ==> Status(response, allow404) == Some(ACLDisabled(response.body))
    ensures response.code == 403 ==> Status(response, allow404) == Some(ACLPermissionDenied(response.body))
    ensures 400 <= response.code < 500 && response.code !in {400, 401, 403, 404} ==>
              Status(response, allow404) == Some(ClientError(CodeAndBody(response)))
    ensures 500 <= response.code < 600 ==> Status(response, allow404) == Some(ConsulException(CodeAndBody(response)))
  {
  }

  /** The message of a BadRequest, ClientError or ConsulException names the code it came from. */
  lemma StatusMessageCarriesCode(response: Response, allow404: bool)
    requires Status(response, allow404).Some?
    requires var e := Status(response, allow404).value; e.BadRequest? || e.ClientError? || e.ConsulException?
    ensures var m := Status(response, allow404).value.message;
            exists k :: 0 < k < |m| && m[k] == ' ' && ParseInt(m[..k]) == Some(response.code) && m[k + 1..] == response.body
  {
    var m := Status(response, allow404).value.message;
    var digits := IntToString(response.code);
    var k := |digits|;
    assert m == digits + " " + response.body;
    assert m[..k] == digits && m[k] == ' ' && m[k + 1..] == response.body;
    IntToStringRoundTrip(response.code);
  }

  /** `_status` raises exactly for codes in [400, 600), except an allowed 404. */
  lemma StatusRaisesIff(response: Response, allow404: bool)
    ensures Status(response, allow404).Some? <==>
              400 <= response.code < 600 && !(response.code == 404 && allow404)
  {
  }

  /** A 404 raises NotFound exactly when it is not allowed. */
  lemma NotFoundIffDisallowed(response: Response, allow404: bool)
    requires response.code == 404
    ensures Status(response, allow404) == Some(NotFound(response.body)) <==> !allow404
    ensures allow404 ==> Status(response, allow404).None?
  {
  }

  /** `allow_404` changes the outcome of no code but 404. */
  lemma Allow404OnlyAffects404(response: Response)
    requires response.code != 404
    ensures Status(response, true) == Status(response, false)
  {
  }

  // ---------------------------------------------------------------------
  // The boolean formatter

  /** `CB.bool()`: check the status (404 allowed), then answer `code == 200`. */
  function Bool(response: Response): Outcome<bool> {
    match Status(response, true)
    case Some(e) => Raise(e)
    case None => Ok(response.code == 200)
  }

  /** Bool raises exactly the status errors, and otherwise is true exactly for 200. */
  lemma BoolIsTrueExactlyFor200(response: Response)
    ensures Bool(response).Raise? <==> 400 <= response.code < 600 && response.code != 404
    ensures Bool(response).Raise? ==> Some(Bool(response).exception) == Status(response, true)
    ensures Bool(response) == Ok(true) <==> response.code == 200
    ensures response.code == 404 ==> Bool(response) == Ok(false)
  {
  }

  // ---------------------------------------------------------------------
  // The steps of the decoding formatter

  /** `json.loads(body)`; a body that is not JSON raises ValueError. */
  function Parse(lib: Codecs, body: string): Outcome<Json> {
    match lib.loads(body)
    case None => Raise(ValueError)
    case Some(data) => Ok(data)
  }

  /** `if decode:` — the field name, when one is given and is not the empty (false) string. */
  function DecodeKey(opts: JsonOptions): Option<string> {
    if opts.decode.Some? && opts.decode.value != "" then opts.decode else None
  }

  /**
   * `base64.b64decode(value)`: a str must be ASCII and is decoded from its
   * bytes, a bytes value is decoded as it is; anything else is a TypeError,
   * and undecodable input a ValueError (binascii.Error).
   */
  function Base64Decode(value: Json, lib: Codecs): Outcome<seq<bv8>> {
    match value
    case JString(s) =>
      if !IsAscii(s) then Raise(ValueError)
      else (match lib.b64decode(AsciiBytes(s)) case None => Raise(ValueError) case Some(b) => Ok(b))
    case JBytes(b) =>
      (match lib.b64decode(b) case None => Raise(ValueError) case Some(d) => Ok(d))
    case _ => Raise(TypeError)
  }

  /** One turn of `for item in data`: replace a present, non-null `item[key]` by its decoding. */
  function DecodeItem(item: Json, key: string, lib: Codecs): Outcome<Json> {
    match item
    case JDict(fields) =>
      if key in fields && fields[key] != JNull then
        var bytes :- Base64Decode(fields[key], lib);
        Ok(JDict(fields[key := JBytes(bytes)]))
      else Ok(item)
    case _ => Raise(AttributeError)
  }

  /** What the decode loop does to a list, item by item from the front; the first failing item decides the exception. */
  function DecodeAll(items: seq<Json>, key: string, lib: Codecs): Outcome<seq<Json>>
    decreases |items|
  {
    if items == [] then Ok([])
    else
      var first :- DecodeItem(items[0], key, lib);
      var rest :- DecodeAll(items[1..], key, lib);
      Ok([first] + rest)
  }

  /**
   * The decode loop over a value that is not a list: a dict iterates its
   * (str) keys and bytes iterate ints, neither of which has `.get`; None,
   * booleans and numbers are not iterable. Only an empty iterable passes.
   */
  function DecodeNonList(data: Json): Outcome<Json>
    requires !data.JList?
  {
    match data
    case JDict(fields) => if fields == map[] then Ok(data) else Raise(AttributeError)
    case JString(s) => if s == "" then Ok(data) else Raise(AttributeError)
    case JBytes(b) => if b == [] then Ok(data) else Raise(AttributeError)
    case _ => Raise(TypeError)
  }

  function DecodeStep(data: Json, key: string, lib: Codecs): Outcome<Json> {
    match data
    case JList(items) =>
      var decoded :- DecodeAll(items, key, lib);
      Ok(JList(decoded))
    case _ => DecodeNonList(data)
  }

  /** `data["ID"]`. */
  function ExtractId(data: Json): Outcome<Json> {
    match data
    case JDict(fields) => if "ID" in fields then Ok(fields["ID"]) else Raise(KeyError)
    case _ => Raise(TypeError)
  }

  /** `data[0]` in Python: a list's first item, a str's first character, a bytes value's first byte as an int. */
  function Subscript0(data: Json): Outcome<Json> {
    match data
    case JList(items) => if items == [] then Raise(IndexError) else Ok(items[0])
    case JString(s) => if s == "" then Raise(IndexError) else Ok(JString(s[..1]))
    case JBytes(b) => if b == [] then Raise(IndexError) else Ok(JNumber(b[0] as int))
    case JDict(_) => Raise(KeyError)
    case _ => Raise(TypeError)
  }

  /** The `one` step: `[]` becomes None, None stays None, anything else is subscripted with 0. */
  function FirstOnly(data: Json): Outcome<Json> {
    var d := if data == JList([]) then JNull else data;
    if d != JNull then Subscript0(d) else Ok(d)
  }

  /** The `else` branch of `cb`: parse the body, then run the enabled steps in order. */
  function Transform(lib: Codecs, opts: JsonOptions, body: string): Outcome<Json> {
    var parsed :- Parse(lib, body);
    var decoded :- if DecodeKey(opts).Some? then DecodeStep(parsed, DecodeKey(opts).value, lib) else Ok(parsed);
    var identified :- if opts.isId then ExtractId(decoded) else Ok(decoded);
    var single :- if opts.one then FirstOnly(identified) else Ok(identified);
    Ok(if opts.postprocess.Some? then opts.postprocess.value(single) else single)
  }

  /** The callback returned by `CB.json(...)`. */
  function JsonFormat(lib: Codecs, opts: JsonOptions, response: Response): Outcome<Formatted> {
    match Status(response, opts.allow404)
    case Some(e) => Raise(e)
    case None =>
      var data :- if response.code == 404 then Ok(JNull) else Transform(lib, opts, response.body);
      if opts.index then
        match HeaderLookup(response.headers, IndexHeader)
        case None => Raise(KeyError)
        case Some(index) => Ok(Indexed(index, data))
      else Ok(Bare(data))
  }

  // ---------------------------------------------------------------------
  // The decode loop, as the source runs it: in place, item by item

  /** `for item in data: if item.get(key) is not None: item[key] = b64decode(item[key])` on a list held in an array. */
  method DecodeItemsInPlace(items: array<Json>, key: string, lib: Codecs) returns (raised: Option<Exception>)
    modifies items
    ensures raised.None? ==> DecodeAll(old(items[..]), key, lib) == Ok(items[..])
    ensures raised.Some? ==> DecodeAll(old(items[..]), key, lib) == Raise(raised.value)
  {
    ghost var original := items[..];
    var i := 0;
    while i < items.Length
      invariant 0 <= i <= items.Length
      invariant items[i..] == original[i..]
      invariant forall j :: 0 <= j < i ==> DecodeItem(original[j], key, lib) == Ok(items[j])
    {
      var decoded := DecodeItem(items[i], key, lib);
      if decoded.Raise? {
        DecodeAllStopsAtFirstFailure(original, key, lib, i);
        return Some(decoded.exception);
      }
      items[i] := decoded.value;
      i := i + 1;
    }
    DecodeAllPointwise(original, key, lib);
    ghost var out := DecodeAll(original, key, lib).value;
    assert forall j :: 0 <= j < items.Length ==> items[j] == out[j];
    assert items[..] == out;
    raised := None;
  }

  /** The callback of `CB.json(...)` as the source runs it, reassigning `data` step by step. */
  method RunJson(lib: Codecs, opts: JsonOptions, response: Response) returns (result: Outcome<Formatted>)
    ensures result == JsonFormat(lib, opts, response)
  {
    var status := Status(response, opts.allow404);
    if status.Some? {
      return Raise(status.value);
    }
    var data: Json;
    if response.code == 404 {
      data := JNull;
    } else {
      data :- Parse(lib, response.body);
      if DecodeKey(opts).Some? {
        var key := DecodeKey(opts).value;
        if data.JList? {
          var items := new Json[|data.items|](j requires 0 <= j < |data.items| reads {} => data.items[j]);
          assert items[..] == data.items;
          var raised := DecodeItemsInPlace(items, key, lib);
          if raised.Some? {
            return Raise(raised.value);
          }
          data := JList(items[..]);
        } else {
          data :- DecodeNonList(data);
        }
      }
      if opts.isId {
        data :- ExtractId(data);
      }
      if opts.one {
        if data == JList([]) {
          data := JNull;
        }
        if data != JNull {
          data :- Subscript0(data);
        }
      }
      if opts.postprocess.Some? {
        data := opts.postprocess.value(data);
      }
    }
    if opts.index {
      var index := HeaderLookup(response.headers, IndexHeader);
      if index.None? {
        return Raise(KeyError);
      }
      return Ok(Indexed(index.value, data));
    }
    return Ok(Bare(data));
  }

  // ---------------------------------------------------------------------
  // Properties of the decode step

  /** Decoding a list succeeds exactly when every item decodes; it keeps the length and the order. */
  lemma {:induction false} DecodeAllPointwise(items: seq<Json>, key: string, lib: Codecs)
    ensures DecodeAll(items, key, lib).Ok? <==> forall j :: 0 <= j < |items| ==> DecodeItem(items[j], key, lib).Ok?
    ensures DecodeAll(items, key, lib).Ok? ==>
              var out := DecodeAll(items, key, lib).value;
              |out| == |items| && forall j :: 0 <= j < |items| ==> DecodeItem(items[j], key, lib) == Ok(out[j])
    decreases |items|
  {
    if items != [] {
      var rest := items[1..];
      DecodeAllPointwise(rest, key, lib);
      assert forall j :: 1 <= j < |items| ==> items[j] == rest[j - 1];
      if DecodeAll(items, key, lib).Ok? {
        var out := DecodeAll(items, key, lib).value;
        assert out[1..] == DecodeAll(rest, key, lib).value;
      }
    }
  }

  /** When item `i` is the first that fails, the whole decode raises what that item raised. */
  lemma {:induction false} DecodeAllStopsAtFirstFailure(items: seq<Json>, key: string, lib: Codecs, i: nat)
    requires i < |items| && DecodeItem(items[i], key, lib).Raise?
    requires forall j :: 0 <= j < i ==> DecodeItem(items[j], key, lib).Ok?
    ensures DecodeAll(items, key, lib) == Raise(DecodeItem(items[i], key, lib).exception)
    decreases i
  {
    if i > 0 {
      var rest := items[1..];
      assert forall j :: 0 <= j < i - 1 ==> rest[j] == items[j + 1];
      DecodeAllStopsAtFirstFailure(rest, key, lib, i - 1);
    }
  }

  /** One item: a present, non-null field is replaced by its decoding; every other field, and an item without it, is kept. */
  lemma DecodeItemReplacesOnlyTheField(item: Json, key: string, lib: Codecs)
    requires item.JDict?
    ensures !(key in item.fields && item.fields[key] != JNull) ==> DecodeItem(item, key, lib) == Ok(item)
    ensures key in item.fields && item.fields[key] != JNull ==>
              match Base64Decode(item.fields[key], lib)
              case Raise(e) => DecodeItem(item, key, lib) == Raise(e)
              case Ok(bytes) =>
                DecodeItem(item, key, lib).Ok? &&
                var fields := DecodeItem(item, key, lib).value.fields;
                fields.Keys == item.fields.Keys && fields[key] == JBytes(bytes) &&
                forall k :: k in fields && k != key ==> fields[k] == item.fields[k]
  {
  }

  /** A list item that is not a dict has no `.get`. */
  lemma DecodeItemNeedsDict(item: Json, key: string, lib: Codecs)
    requires !item.JDict?
    ensures DecodeItem(item, key, lib) == Raise(AttributeError)
  {
  }

  // ---------------------------------------------------------------------
  // Properties of the `one` step

  /** `one`: an empty list becomes None, a non-empty list its first element, None stays None. */
  lemma FirstOnlyOfList(data: Json)
    requires data.JList? || data.JNull?
    ensures data == JNull ==> FirstOnly(data) == Ok(JNull)
    ensures data.JList? && data.items == [] ==> FirstOnly(data) == Ok(JNull)
    ensures data.JList? && data.items != [] ==> FirstOnly(data) == Ok(data.items[0])
  {
  }

  // ---------------------------------------------------------------------
  // Properties of the whole formatter

  /** The status check runs first: a status error is raised before the body is looked at. */
  lemma StatusCheckedFirst(lib: Codecs, opts: JsonOptions, response: Response)
    requires Status(response, opts.allow404).Some?
    ensures JsonFormat(lib, opts, response) == Raise(Status(response, opts.allow404).value)
  {
  }

  /**
   * An allowed 404 yields None without parsing the body: the result does not
   * depend on the codecs, the body, or the decode, is_id, one and postprocess options.
   */
  lemma Allowed404IsAbsent(lib: Codecs, opts: JsonOptions, response: Response)
    requires response.code == 404 && opts.allow404
    ensures !opts.index ==> JsonFormat(lib, opts, response) == Ok(Bare(JNull))
    ensures opts.index ==>
              JsonFormat(lib, opts, response) ==
                match HeaderLookup(response.headers, IndexHeader)
                case None => Raise(KeyError)
                case Some(index) => Ok(Indexed(index, JNull))
  {
  }

  /** With `index`, the result is the pair (index header, data) of the same data that the bare form returns. */
  lemma IndexPairsSameData(lib: Codecs, opts: JsonOptions, response: Response)
    ensures var bare := JsonFormat(lib, opts.(index := false), response);
            var paired := JsonFormat(lib, opts.(index := true), response);
            (bare.Raise? ==> paired == bare) &&
            (bare.Ok? ==>
              bare.value.Bare? &&
              paired == match HeaderLookup(response.headers, IndexHeader)
                        case None => Raise(KeyError)
                        case Some(index) => Ok(Indexed(index, bare.value.data)))
  {
  }

  /** postprocess is applied once, to the data that the other steps produce. */
  lemma PostprocessAppliedLast(lib: Codecs, opts: JsonOptions, body: string, f: Json -> Json)
    ensures var without := Transform(lib, opts.(postprocess := None), body);
            Transform(lib, opts.(postprocess := Some(f)), body) ==
              match without
              case Raise(e) => Raise(e)
              case Ok(data) => Ok(f(data))
  {
  }

  /** With the default options the formatter is `json.loads` of the body. */
  lemma DefaultOptionsOnlyParse(lib: Codecs, response: Response)
    requires Status(response, true).None? && response.code != 404
    ensures JsonFormat(lib, DefaultJsonOptions(), response) ==
              match lib.loads(response.body)
              case None => Raise(ValueError)
              case Some(data) => Ok(Bare(data))
  {
  }

  // ---------------------------------------------------------------------
  // The pipeline as a list of steps: a second definition of Transform

  datatype Step = DecodeField(key: string) | ExtractIdField | FirstElement | Postprocess(f: Json -> Json)

  /** The position of a step in the fixed order. */
  function Rank(step: Step): nat {
    match step
    case DecodeField(_) => 0
    case ExtractIdField => 1
    case FirstElement => 2
    case Postprocess(_) => 3
  }

  /** The steps that the options switch on, in the order the callback runs them. */
  function Pipeline(opts: JsonOptions): seq<Step> {
    (if DecodeKey(opts).Some? then [DecodeField(DecodeKey(opts).value)] else [])
    + (if opts.isId then [ExtractIdField] else [])
    + (if opts.one then [FirstElement] else [])
    + (if opts.postprocess.Some? then [Postprocess(opts.postprocess.value)] else [])
  }

  /** Whether the options switch `step` on. */
  ghost predicate Enabled(opts: JsonOptions, step: Step) {
    match step
    case DecodeField(key) => DecodeKey(opts) == Some(key)
    case ExtractIdField => opts.isId
    case FirstElement => opts.one
    case Postprocess(f) => opts.postprocess.Some? && forall d :: f(d) == opts.postprocess.value(d)
  }

  /**
   * The fixed order: every step appears at most once and in rank order, a
   * step appears exactly when its option is set, and postprocess, when
   * given, is the last step.
   */
  lemma PipelineOrder(opts: JsonOptions)
    ensures var steps := Pipeline(opts);
            (forall i, j :: 0 <= i < j < |steps| ==> Rank(steps[i]) < Rank(steps[j])) &&
            (forall i :: 0 <= i < |steps| ==> Enabled(opts, steps[i])) &&
            (DecodeKey(opts).Some? ==> exists i :: 0 <= i < |steps| && steps[i].DecodeField?) &&
            (opts.isId ==> exists i :: 0 <= i < |steps| && steps[i].ExtractIdField?) &&
            (opts.one ==> exists i :: 0 <= i < |steps| && steps[i].FirstElement?) &&
            (opts.postprocess.Some? <==> |steps| > 0 && steps[|steps| - 1].Postprocess?)
  {
    var decode := if DecodeKey(opts).Some? then [DecodeField(DecodeKey(opts).value)] else [];
    var id := if opts.isId then [ExtractIdField] else [];
    var one := if opts.one then [FirstElement] else [];
    var post := if opts.postprocess.Some? then [Postprocess(opts.postprocess.value)] else [];
    var steps := Pipeline(opts);
    assert steps == decode + id + one + post;
    forall i | 0 <= i < |steps|
      ensures Enabled(opts, steps[i])
      ensures Rank(steps[i]) == if i < |decode| then 0 else if i < |decode| + |id| then 1
                                else if i < |decode| + |id| + |one| then 2 else 3
    {
      if i < |decode| {
        assert steps[i] == decode[i];
      } else if i < |decode| + |id| {
        assert steps[i] == id[i - |decode|];
      } else if i < |decode| + |id| + |one| {
        assert steps[i] == one[i - |decode| - |id|];
      } else {
        assert steps[i] == post[i - |decode| - |id| - |one|];
      }
    }
    if DecodeKey(opts).Some? {
      assert Rank(steps[0]) == 0;
    }
    if opts.isId {
      assert Rank(steps[|decode|]) == 1;
    }
    if opts.one {
      assert Rank(steps[|decode| + |id|]) == 2;
    }
  }

  function RunStep(step: Step, data: Json, lib: Codecs): Outcome<Json> {
    match step
    case DecodeField(key) => DecodeStep(data, key, lib)
    case ExtractIdField => ExtractId(data)
    case FirstElement => FirstOnly(data)
    case Postprocess(f) => Ok(f(data))
  }

  /** Runs the steps left to right, stopping at the first that raises. */
  function RunSteps(steps: seq<Step>, data: Json, lib: Codecs): Outcome<Json>
    decreases |steps|
  {
    if steps == [] then Ok(data)
    else
      var next :- RunStep(steps[0], data, lib);
      RunSteps(steps[1..], next, lib)
  }

  /** Running two lists of steps one after the other is running their concatenation. */
  lemma {:induction false} RunStepsAppend(a: seq<Step>, b: seq<Step>, data: Json, lib: Codecs)
    ensures RunSteps(a + b, data, lib) ==
              match RunSteps(a, data, lib)
              case Raise(e) => Raise(e)
              case Ok(mid) => RunSteps(b, mid, lib)
    decreases |a|
  {
    if a == [] {
      assert a + b == b;
    } else {
      assert (a + b)[0] == a[0] && (a + b)[1..] == a[1..] + b;
      match RunStep(a[0], data, lib)
      case Raise(e) =>
      case Ok(next) => RunStepsAppend(a[1..], b, next, lib);
    }
  }

  /** A step that the options switch on or off. */
  lemma RunOptionalStep(on: bool, step: Step, data: Json, lib: Codecs)
    ensures RunSteps(if on then [step] else [], data, lib) == if on then RunStep(step, data, lib) else Ok(data)
  {
  }

  /** The formatter's body transform is the parse followed by the pipeline of enabled steps, in order. */
  lemma TransformRunsPipeline(lib: Codecs, opts: JsonOptions, body: string)
    ensures Parse(lib, body).Raise? ==> Transform(lib, opts, body) == Parse(lib, body).PropagateFailure()
    ensures Parse(lib, body).Ok? ==> Transform(lib, opts, body) == RunSteps(Pipeline(opts), Parse(lib, body).value, lib)
  {
    var key := if DecodeKey(opts).Some? then DecodeKey(opts).value else "";
    var f := if opts.postprocess.Some? then opts.postprocess.value else (d: Json) => d;
    var decode := if DecodeKey(opts).Some? then [DecodeField(key)] else [];
    var id := if opts.isId then [ExtractIdField] else [];
    var one := if opts.one then [FirstElement] else [];
    var post := if opts.postprocess.Some? then [Postprocess(f)] else [];
    assert Pipeline(opts) == decode + (id + (one + post));
    if Parse(lib, body).Ok? {
      var parsed := Parse(lib, body).value;
      RunStepsAppend(decode, id + (one + post), parsed, lib);
      RunOptionalStep(DecodeKey(opts).Some?, DecodeField(key), parsed, lib);
      var r1 := RunSteps(decode, parsed, lib);
      if r1.Ok? {
        RunStepsAppend(id, one + post, r1.value, lib);
        RunOptionalStep(opts.isId, ExtractIdField, r1.value, lib);
        var r2 := RunSteps(id, r1.value, lib);
        if r2.Ok? {
          RunStepsAppend(one, post, r2.value, lib);
          RunOptionalStep(opts.one, FirstElement, r2.value, lib);
          var r3 := RunSteps(one, r2.value, lib);
          if r3.Ok? {
            RunOptionalStep(opts.postprocess.Some?, Postprocess(f), r3.value, lib);
          }
        }
      }
    }
  }
}
