/**
 * One round trip of `Celly.request`, without the network: the headers sent
 * are the client's defaults overlaid with the per-call ones, and the reply
 * the transport hands back decides the outcome. The body is decoded as JSON
 * only when the content type is exactly `application/json`; a status of 200
 * returns the (possibly decoded) body, any other status raises the error
 * `RequestError.from_response` builds for it.
 */
module Transport {
  import opened Wrappers
  import opened PyText
  import opened PyValues
  import opened Errors

  datatype Method = GET | POST | PATCH | DELETE

  /** One request as the client hands it to the transport; `body` is what
      `dumps` serialises. */
  datatype HttpCall = HttpCall(uri: PyStr, verb: Method, body: Option<Json>, headers: map<PyStr, PyStr>)

  /** The transport's answer: the numeric status, the response headers and the raw body. */
  datatype Reply = Reply(status: int, headers: map<PyStr, PyStr>, raw: PyStr)

  /** How a request can fail: with the client's own exception, or with a Python crash. */
  datatype Failure = Raised(error: RequestError) | Crashed(crash: Crash)

  /** `bh = defaults.copy(); bh.update(perCall)`: per-call headers win. */
  function MergeHeaders(defaults: map<PyStr, PyStr>, perCall: map<PyStr, PyStr>): (r: map<PyStr, PyStr>)
    ensures r.Keys == defaults.Keys + perCall.Keys
    ensures forall k :: k in perCall ==> r[k] == perCall[k]
    ensures forall k :: k in defaults && k !in perCall ==> r[k] == defaults[k]
  {
    defaults + perCall
  }

  /** `status.get('content-type') == 'application/json'`. */
  predicate IsJson(reply: Reply) {
    "content-type" in reply.headers && reply.headers["content-type"] == "application/json"
  }

  /** The body `request` goes on with: decoded by `loads` when the reply is
      JSON (a body `loads` rejects raises `ValueError`), the raw text otherwise. */
  function Body(reply: Reply, loads: PyStr -> Option<Json>): (r: Result<Json, Crash>)
    ensures r.Ok? <==> !IsJson(reply) || loads(reply.raw).Some?
    ensures !IsJson(reply) ==> r == Ok(JStr(reply.raw))
    ensures IsJson(reply) && r.Ok? ==> r.value == loads(reply.raw).value
    ensures r.Err? ==> r.error == ValueError
  {
    if !IsJson(reply) then Ok(JStr(reply.raw))
    else if loads(reply.raw).Some? then Ok(loads(reply.raw).value)
    else Err(ValueError)
  }

  /** What `request` returns or raises for a reply. */
  function Outcome(reply: Reply, loads: PyStr -> Option<Json>): (r: Result<Json, Failure>)
    ensures r.Ok? <==> reply.status == 200 && Body(reply, loads).Ok?
    ensures r.Ok? ==> r.value == Body(reply, loads).value
    ensures Body(reply, loads).Err? ==> r == Err(Crashed(Body(reply, loads).error))
    ensures reply.status != 200 && Body(reply, loads).Ok? ==>
      var e := FromResponse(reply.status, Body(reply, loads).value);
      (e.Ok? ==> r == Err(Raised(e.value))) && (e.Err? ==> r == Err(Crashed(e.error)))
  {
    match Body(reply, loads)
    case Err(c) => Err(Crashed(c))
    case Ok(data) =>
      if reply.status == 200 then Ok(data)
      else
        match FromResponse(reply.status, data)
        case Ok(e) => Err(Raised(e))
        case Err(c) => Err(Crashed(c))
  }

  /** A request succeeds exactly when the status is 200 and the body, if it is
      JSON, decodes; it then returns the decoded value or the raw text. */
  lemma Success(reply: Reply, loads: PyStr -> Option<Json>)
    ensures Outcome(reply, loads).Ok? <==> reply.status == 200 && (IsJson(reply) ==> loads(reply.raw).Some?)
    ensures Outcome(reply, loads).Ok? && IsJson(reply) ==> Outcome(reply, loads).value == loads(reply.raw).value
    ensures Outcome(reply, loads).Ok? && !IsJson(reply) ==> Outcome(reply, loads).value == JStr(reply.raw)
  {
  }

  /** A JSON body that does not decode raises `ValueError` whatever the
      status; a body that is not JSON never makes the request crash before
      the status is looked at. */
  lemma Failures(reply: Reply, loads: PyStr -> Option<Json>)
    ensures IsJson(reply) && loads(reply.raw).None? ==> Outcome(reply, loads) == Err(Crashed(ValueError))
    ensures !IsJson(reply) && reply.status != 200 ==>
      var e := FromResponse(reply.status, JStr(reply.raw));
      (e.Ok? ==> Outcome(reply, loads) == Err(Raised(e.value))) &&
      (e.Err? ==> Outcome(reply, loads) == Err(Crashed(e.error)))
  {
  }

  /** A content type with parameters (`application/json; charset=utf-8`) is
      not JSON to the client: the body comes back as raw text or feeds
      `from_response` undecoded. */
  lemma ExactContentType(reply: Reply, loads: PyStr -> Option<Json>)
    requires "content-type" in reply.headers
    requires reply.headers["content-type"] == "application/json; charset=utf-8"
    ensures Outcome(reply, loads).Ok? <==> reply.status == 200
    ensures reply.status == 200 ==> Outcome(reply, loads) == Ok(JStr(reply.raw))
  {
    assert reply.headers["content-type"] != "application/json" by {
      assert |reply.headers["content-type"]| != |"application/json"|;
    }
  }
}
