/**
 * The error taxonomy: `RequestError` and its subclasses, how `from_response`
 * picks one from a status code and a response body, the attributes an error
 * object carries, and its text rendering (`__str__`).
 *
 * The class hierarchy is a datatype of kinds with a parent function; the
 * "data category" callers catch as `DataError` is a predicate over kinds.
 * Inputs on which the Python code itself raises `KeyError` or `TypeError`
 * instead of building an error object give an explicit `Crash`.
 */
module Errors {
  import opened Wrappers
  import opened PyText
  import opened PyValues

  /** The exception classes of the taxonomy. */
  datatype Kind =
    | RequestErrorKind
    | MethodError
    | UserError
    | AccessError
    | DataError
    | ConflictError
    | PathError
    | PatchError

  /** The class each class directly derives from; `RequestError` itself derives
      from `Exception`, which is outside the taxonomy. */
  function Parent(k: Kind): Option<Kind> {
    match k
    case RequestErrorKind => None
    case MethodError | UserError | AccessError | DataError => Some(RequestErrorKind)
    case ConflictError | PathError | PatchError => Some(DataError)
  }

  function Depth(k: Kind): nat {
    match Parent(k)
    case None => 0
    case Some(p) => if p == RequestErrorKind then 1 else 2
  }

  /** `issubclass(k, c)`: `c` is `k` or one of its ancestors. */
  predicate IsA(k: Kind, c: Kind)
    decreases Depth(k)
  {
    k == c || (Parent(k).Some? && IsA(Parent(k).value, c))
  }

  /** The kinds callers catch as `DataError`. */
  predicate IsDataCategory(k: Kind) {
    k == DataError || k == ConflictError || k == PathError || k == PatchError
  }

  /** Every kind is a `RequestError`; exactly the data category is a `DataError`;
      and nothing but `RequestError` is an ancestor of `RequestError`. */
  lemma Hierarchy(k: Kind)
    ensures IsA(k, RequestErrorKind)
    ensures IsA(k, DataError) <==> IsDataCategory(k)
    ensures IsA(RequestErrorKind, k) <==> k == RequestErrorKind
  {
  }

  /** An error object: its class, the `message` it was built with, and `_data`,
      every other keyword argument it was built with (`code` among them). */
  datatype RequestError = RequestError(kind: Kind, message: Json, data: map<PyStr, Json>)

  /** `cls(code=code, **kw)`, which runs `RequestError.__init__(self, message, **kw)`:
      `code` must not come twice (checked at the call), a keyword `self` clashes
      with the positional `self`, and `message` is a required parameter. */
  function Construct(kind: Kind, code: int, kw: map<PyStr, Json>): (r: Result<RequestError, Crash>)
    ensures r.Ok? <==> "code" !in kw && "self" !in kw && "message" in kw
    ensures "code" in kw ==> r == Err(TypeError(DuplicateKeyword("code")))
    ensures "code" !in kw && "self" in kw ==> r == Err(TypeError(DuplicateKeyword("self")))
    ensures "code" !in kw && "self" !in kw && "message" !in kw ==> r == Err(TypeError(MissingArgument("message")))
    ensures r.Ok? ==> r.value.kind == kind && r.value.message == kw["message"]
    ensures r.Ok? ==> r.value.data.Keys == kw.Keys - {"message"} + {"code"}
    ensures r.Ok? ==> r.value.data["code"] == JInt(code)
    ensures r.Ok? ==> forall k :: k in kw && k != "message" ==> r.value.data[k] == kw[k]
  {
    if "code" in kw then Err(TypeError(DuplicateKeyword("code")))
    else if "self" in kw then Err(TypeError(DuplicateKeyword("self")))
    else if "message" !in kw then Err(TypeError(MissingArgument("message")))
    else Ok(RequestError(kind, kw["message"], (kw - {"message"})["code" := JInt(code)]))
  }

  /** The body as `from_response` sees it: a non-dict body counts as `{}`. */
  function Fields(body: Json): map<PyStr, Json> {
    if body.JObj? then body.fields else map[]
  }

  /** `RequestError.from_response(status, data)` for the status code `code`. */
  function FromResponse(code: int, body: Json): (r: Result<RequestError, Crash>)
    ensures r.Ok? ==> r.value.kind == TableKind(code, ErrorField(body))
    ensures r.Ok? ==> "code" in r.value.data && r.value.data["code"] == JInt(code)
  {
    var data := Fields(body);
    if code == 400 then
      if "error" !in data then Err(KeyError(JStr("error")))
      else if data["error"] == JStr("invalid-data") then Construct(DataError, code, data)
      else if data["error"] == JStr("invalid-patch") then Construct(PatchError, code, data)
      else Construct(UserError, code, data)
    else if code == 403 then Construct(AccessError, code, data)
    else if code == 404 then Construct(PathError, code, data)
    else if code == 405 then Construct(MethodError, code, map["message" := JStr("method not allowed")])
    else if code == 409 then Construct(ConflictError, code, data)
    else if "message" in data then Construct(RequestErrorKind, code, data)
    else Construct(RequestErrorKind, code, map["message" := JStr("request failed")])
  }

  /** The status codes with a class of their own. */
  predicate IsMapped(code: int) {
    code == 400 || code == 403 || code == 404 || code == 405 || code == 409
  }

  /** The classification table, written independently of `FromResponse`. */
  function TableKind(code: int, error: Option<Json>): Kind {
    match code
    case 400 =>
      if error == Some(JStr("invalid-data")) then DataError
      else if error == Some(JStr("invalid-patch")) then PatchError
      else UserError
    case 403 => AccessError
    case 404 => PathError
    case 405 => MethodError
    case 409 => ConflictError
    case _ => RequestErrorKind
  }

  /** The `error` discriminator of a body, if it has one. */
  function ErrorField(body: Json): Option<Json> {
    if "error" in Fields(body) then Some(Fields(body)["error"]) else None
  }

  /** An error is a `DataError` exactly for 404, 409 and the two 400 data problems. */
  lemma DataCategory(code: int, body: Json)
    requires FromResponse(code, body).Ok?
    ensures IsA(FromResponse(code, body).value.kind, DataError) <==>
      code == 404 || code == 409 ||
      (code == 400 && ErrorField(body) in {Some(JStr("invalid-data")), Some(JStr("invalid-patch"))})
  {
    Hierarchy(FromResponse(code, body).value.kind);
  }

  /** The inputs on which `from_response` raises instead of returning: a 400 body
      without `error`; a 400/403/404/409 body that lacks `message` or has `code`
      or `self`; an unmapped code whose body has `message` and `code` or `self`. */
  lemma Crashes(code: int, body: Json)
    ensures FromResponse(code, body).Err? <==>
      (code == 400 && "error" !in Fields(body)) ||
      ((code == 400 || code == 403 || code == 404 || code == 409) &&
        ("code" in Fields(body) || "self" in Fields(body) || "message" !in Fields(body))) ||
      (!IsMapped(code) && "message" in Fields(body) && ("code" in Fields(body) || "self" in Fields(body)))
    ensures code == 400 && "error" !in Fields(body) ==> FromResponse(code, body) == Err(KeyError(JStr("error")))
    ensures (&& !(code == 400 && "error" !in Fields(body)) && code != 405
             && "code" in Fields(body)
             && (IsMapped(code) || "message" in Fields(body))) ==>
      FromResponse(code, body) == Err(TypeError(DuplicateKeyword("code")))
    ensures (&& !(code == 400 && "error" !in Fields(body)) && code != 405
             && "code" !in Fields(body) && "self" in Fields(body)
             && (IsMapped(code) || "message" in Fields(body))) ==>
      FromResponse(code, body) == Err(TypeError(DuplicateKeyword("self")))
  {
  }

  /** A 404 body with a `self` field makes the constructor raise: the keyword
      clashes with the positional `self`. */
  lemma SelfKeyword()
    ensures FromResponse(404, JObj(map["message" := JStr("m"), "self" := JInt(1)])) == Err(TypeError(DuplicateKeyword("self")))
  {
    var body := map["message" := JStr("m"), "self" := JInt(1)];
    assert "self" in body && "code" !in body;
  }

  /** A built error carries `code` and, unless the code is 405 or unmapped without
      a message, every other field of the body; 405 and the message-less
      fallback carry `code` alone. */
  lemma CarriedFields(code: int, body: Json)
    requires FromResponse(code, body).Ok?
    ensures code != 405 && "message" in Fields(body) ==>
      FromResponse(code, body).value.message == Fields(body)["message"] &&
      FromResponse(code, body).value.data == (Fields(body) - {"message"})["code" := JInt(code)]
    ensures code == 405 || (!IsMapped(code) && "message" !in Fields(body)) ==>
      FromResponse(code, body).value.data == map["code" := JInt(code)]
    ensures code == 405 ==> FromResponse(code, body).value.message == JStr("method not allowed")
    ensures !IsMapped(code) && "message" !in Fields(body) ==>
      FromResponse(code, body).value.message == JStr("request failed")
  {
    var data := Fields(body);
    if code != 405 && "message" in data {
      assert FromResponse(code, body) == Construct(FromResponse(code, body).value.kind, code, data);
    }
  }

  /** 405 ignores the body altogether. */
  lemma MethodIgnoresBody(a: Json, b: Json)
    ensures FromResponse(405, a) == FromResponse(405, b)
    ensures FromResponse(405, a) == Ok(RequestError(MethodError, JStr("method not allowed"), map["code" := JInt(405)]))
  {
  }

  /** A body that is not a dict is handled exactly as `{}`. */
  lemma NonDictIsEmpty(code: int, body: Json)
    requires !body.JObj?
    ensures FromResponse(code, body) == FromResponse(code, JObj(map[]))
  {
  }

  /** The attributes `__init__` sets with `setattr`: every keyword argument whose
      name does not start with `_` (`message` is set by `Exception` itself). */
  method Attributes(e: RequestError) returns (attrs: map<PyStr, Json>)
    ensures attrs.Keys == set k | k in e.data && !StartsWith(k, "_")
    ensures forall k :: k in attrs ==> attrs[k] == e.data[k]
  {
    attrs := map[];
    var pending := e.data.Keys;
    while pending != {}
      invariant pending <= e.data.Keys
      invariant attrs.Keys == set k | k in e.data.Keys - pending && !StartsWith(k, "_")
      invariant forall k :: k in attrs ==> attrs[k] == e.data[k]
      decreases pending
    {
      var k :| k in pending;
      if !StartsWith(k, "_") {
        attrs := attrs[k := e.data[k]];
      }
      pending := pending - {k};
    }
  }

  /** One line of the `Info:` block: `'    %s: %r' % (k, v)`. */
  function InfoLine(k: PyStr, v: Json, repr: Json -> PyStr): PyStr {
    "    " + k + ": " + repr(v)
  }

  function InfoLines(keys: seq<PyStr>, data: map<PyStr, Json>, repr: Json -> PyStr): (r: seq<PyStr>)
    requires forall i :: 0 <= i < |keys| ==> keys[i] in data
    ensures |r| == |keys|
    ensures forall i :: 0 <= i < |keys| ==> r[i] == InfoLine(keys[i], data[keys[i]], repr)
  {
    if keys == [] then [] else [InfoLine(keys[0], data[keys[0]], repr)] + InfoLines(keys[1..], data, repr)
  }

  /** The lines `__str__` joins: the message, `'  Info:'`, then one line per
      `_data` entry in ascending key order. */
  function RenderLines(message: PyStr, data: map<PyStr, Json>, repr: Json -> PyStr): seq<PyStr> {
    [message, "  Info:"] + InfoLines(SortedKeys(data.Keys), data, repr)
  }

  /** What `str(e)` gives: the lines joined by newlines with a trailing newline;
      joining fails when the message is not a string. */
  function Rendering(e: RequestError, repr: Json -> PyStr): (r: Result<PyStr, Crash>)
    ensures r.Ok? <==> e.message.JStr?
    ensures r.Ok? ==> r.value == Terminated("\n", RenderLines(e.message.s, e.data, repr))
    ensures r.Err? ==> r.error == TypeError(NotAString)
  {
    if e.message.JStr? then
      JoinThenTerminate("\n", RenderLines(e.message.s, e.data, repr));
      Ok(Join("\n", RenderLines(e.message.s, e.data, repr)) + "\n")
    else Err(TypeError(NotAString))
  }

  /** `RequestError.__str__`. */
  method Render(e: RequestError, repr: Json -> PyStr) returns (r: Result<PyStr, Crash>)
    ensures r == Rendering(e, repr)
  {
    var keys := SortedKeys(e.data.Keys);
    var info: seq<PyStr> := [];
    for i := 0 to |keys|
      invariant |info| == i
      invariant forall j :: 0 <= j < i ==> info[j] == InfoLine(keys[j], e.data[keys[j]], repr)
    {
      info := info + [InfoLine(keys[i], e.data[keys[i]], repr)];
    }
    assert info == InfoLines(keys, e.data, repr);
    if e.message.JStr? {
      var lines := [e.message.s, "  Info:"] + info;
      assert lines == RenderLines(e.message.s, e.data, repr);
      r := Ok(Join("\n", lines) + "\n");
    } else {
      r := Err(TypeError(NotAString));
    }
  }

  /** The lines are the message, `'  Info:'`, and one line per `_data` entry,
      the entries in strictly ascending key order. */
  lemma RenderLinesShape(message: PyStr, data: map<PyStr, Json>, repr: Json -> PyStr)
    ensures var lines := RenderLines(message, data, repr);
      && |lines| == 2 + |data|
      && lines[0] == message && lines[1] == "  Info:"
      && forall i :: 0 <= i < |data| ==> lines[i + 2] == InfoLine(SortedKeys(data.Keys)[i], data[SortedKeys(data.Keys)[i]], repr)
    ensures StrictlyAscending(SortedKeys(data.Keys))
  {
    SortedKeysAscending(data.Keys);
  }

  /** The rendering starts with the message line and the `Info:` line and
      ends with a newline. */
  lemma RenderingText(e: RequestError, repr: Json -> PyStr)
    requires e.message.JStr?
    ensures Rendering(e, repr).Ok?
    ensures e.message.s + "\n" + "  Info:" + "\n" <= Rendering(e, repr).value
    ensures Rendering(e, repr).value[|Rendering(e, repr).value| - 1] == '\n'
  {
    var lines := RenderLines(e.message.s, e.data, repr);
    assert lines[1..][1..] == lines[2..];
    assert Terminated("\n", lines) == e.message.s + "\n" + ("  Info:" + "\n" + Terminated("\n", lines[2..]));
  }

  /** Each `_data` entry's line, newline included, occurs in the rendering. */
  lemma RenderingContains(e: RequestError, repr: Json -> PyStr, k: PyStr)
    requires e.message.JStr? && k in e.data
    ensures Rendering(e, repr).Ok?
    ensures IsSubstring(InfoLine(k, e.data[k], repr) + "\n", Rendering(e, repr).value)
  {
    var keys := SortedKeys(e.data.Keys);
    var lines := RenderLines(e.message.s, e.data, repr);
    assert k in keys;
    var i :| 0 <= i < |keys| && keys[i] == k;
    assert lines[i + 2] == InfoLine(k, e.data[k], repr);
    TerminatedContainsPart("\n", lines, i + 2, InfoLine(k, e.data[k], repr));
  }

  /** A 404 with `{"error": "not-found", "message": "no such thing"}` is a
      `PathError` with that message, carrying `error` and `code`. */
  lemma NotFoundExample()
    ensures FromResponse(404, JObj(map["error" := JStr("not-found"), "message" := JStr("no such thing")]))
         == Ok(RequestError(PathError, JStr("no such thing"), map["error" := JStr("not-found"), "code" := JInt(404)]))
  {
    var kw := map["error" := JStr("not-found"), "message" := JStr("no such thing")];
    assert (kw - {"message"})["code" := JInt(404)] == map["error" := JStr("not-found"), "code" := JInt(404)];
  }

  /** `sorted` puts `code` before `error`. */
  lemma CodeBeforeError()
    ensures SortedKeys({"code", "error"}) == ["code", "error"]
  {
    var keys: set<PyStr> := {"code", "error"};
    assert IsLeast("code", keys) by {
      assert Less("code", "error");
    }
    SortedKeysUnfold("code", keys);
    assert keys - {"code"} == {"error"};
    SortedKeysUnfold("error", {"error"});
    assert {"error"} - {"error"} == {};
  }

  /** The lines of that error: the message, `Info:`, the `code` line, the `error` line. */
  lemma NotFoundLines(repr: Json -> PyStr)
    ensures RenderLines("no such thing", map["error" := JStr("not-found"), "code" := JInt(404)], repr)
         == ["no such thing", "  Info:", InfoLine("code", JInt(404), repr), InfoLine("error", JStr("not-found"), repr)]
  {
    var data := map["error" := JStr("not-found"), "code" := JInt(404)];
    assert data.Keys == {"code", "error"};
    CodeBeforeError();
  }
}
