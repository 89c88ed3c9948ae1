/**
 * What the Lambda handlers share: the API Gateway event (payload format 1.0
 * or 2.0), the rule the folder routers use to read its method and path, the
 * JSON responses, and the end-anchored `(\d+)` path patterns.
 */
module Http {
  import opened Text
  import opened Js

  /**
   * The parts of an API Gateway event the handlers read. A v1 event carries
   * httpMethod and path; a v2 event carries rawPath and requestContext.http
   * (contextMethod and contextPath, None when any link of that chain is
   * missing). queryStringParameters is None when absent.
   */
  datatype Event = Event(
    httpMethod: Option<string>,
    path: Option<string>,
    rawPath: Option<string>,
    contextMethod: Option<string>,
    contextPath: Option<string>,
    body: Option<string>,
    query: Option<map<string, string>>)

  /** The method and path a folder router dispatches on; both may be undefined. */
  datatype Request = Request(httpMethod: Option<string>, path: Option<string>)

  /**
   * The v2-then-v1 rule of the folder routers: a truthy
   * requestContext.http.method selects it together with rawPath; otherwise
   * httpMethod and path are used when both are truthy; otherwise neither.
   */
  function Normalise(ev: Event): (r: Request)
    ensures r.httpMethod.Some? <==>
      TruthyText(ev.contextMethod) || (TruthyText(ev.httpMethod) && TruthyText(ev.path))
    ensures r.httpMethod.Some? ==> r.httpMethod.value != ""
    ensures r.httpMethod.None? ==> r.path.None?
    ensures TruthyText(ev.contextMethod) ==> r.httpMethod == ev.contextMethod && r.path == ev.rawPath
    ensures !TruthyText(ev.contextMethod) && r.httpMethod.Some? ==>
      r.httpMethod == ev.httpMethod && r.path == ev.path && TruthyText(r.path)
  {
    if TruthyText(ev.contextMethod) then Request(ev.contextMethod, ev.rawPath)
    else if TruthyText(ev.httpMethod) && TruthyText(ev.path) then Request(ev.httpMethod, ev.path)
    else Request(None, None)
  }

  /** The JSON bodies the controllers send, by shape. */
  datatype Body =
    | ErrorBody(error: string)                               // { error }
    | ErrorDetail(error: string, message: string)            // { error, message }
    | MessageBody(message: string)                           // { message }
    | MessageWith(message: string, key: string, payload: JsValue)  // { message, [key]: payload }
    | Payload(payload: JsValue)                              // the service's value itself

  /** A response; every one carries `Content-Type: application/json`. */
  datatype Response = Response(status: int, body: Body)

  /** The folder routers' answer to anything they do not route. */
  const NotFound: Response := Response(404, MessageBody("Not found"))

  /** `method === m && path?.endsWith(suffix)` */
  predicate MethodAndSuffix(req: Request, m: string, suffix: string) {
    req.httpMethod == Some(m) && req.path.Some? && EndsWith(req.path.value, suffix)
  }

  /**
   * The digits captured by `(\d+)` when the pattern `prefix(\d+)suffix$`
   * (anchored at the end only) is searched in path; None when it does not match.
   */
  function CaptureId(path: string, prefix: string, suffix: string): (r: Option<string>)
    ensures r.Some? ==> IsDigits(r.value) && EndsWith(path, prefix + r.value + suffix)
  {
    if !EndsWith(path, suffix) then None
    else
      var head := path[..|path| - |suffix|];
      var k := TrailingDigits(head);
      if k > 0 && EndsWith(head[..|head| - k], prefix) then
        CaptureFacts(path, head, prefix, k, suffix);
        Some(head[|head| - k..])
      else None
  }

  /** The digits before the suffix, preceded by the prefix, form a capture. */
  lemma CaptureFacts(path: string, head: string, prefix: string, k: nat, suffix: string)
    requires EndsWith(path, suffix) && head == path[..|path| - |suffix|]
    requires 0 < k <= |head| && forall i :: |head| - k <= i < |head| ==> IsDigit(head[i])
    requires EndsWith(head[..|head| - k], prefix)
    ensures IsDigits(head[|head| - k..]) && EndsWith(path, prefix + head[|head| - k..] + suffix)
  {
    var base, d := head[..|head| - k], head[|head| - k..];
    forall i | 0 <= i < |d| ensures IsDigit(d[i]) {
      assert d[i] == head[|head| - k + i];
    }
    assert path == base + d + suffix by {
      assert path == head + suffix;
      assert head == base + d;
    }
    EndsWithComposed(path, base, prefix, d, suffix);
  }

  /** A text made of something ending with the prefix, then d, then the suffix ends with prefix + d + suffix. */
  lemma EndsWithComposed(path: string, base: string, prefix: string, d: string, suffix: string)
    requires path == base + d + suffix && EndsWith(base, prefix)
    ensures EndsWith(path, prefix + d + suffix)
  {
    var w := base[..|base| - |prefix|];
    assert base == w + prefix;
    assert path == w + (prefix + d + suffix);
  }

  /** `/prefix(\d+)suffix$/.test(path)` */
  predicate MatchesId(path: Option<string>, prefix: string, suffix: string) {
    path.Some? && CaptureId(path.value, prefix, suffix).Some?
  }

  /**
   * When the prefix ends in a non-digit (as every pattern here does, with
   * "/"), the capture is exactly the digit string d for which the path ends
   * with prefix + d + suffix: the pattern matches iff such a d exists, and it
   * is unique.
   */
  lemma CaptureIdExact(path: string, prefix: string, d: string, suffix: string)
    requires |prefix| > 0 && !IsDigit(prefix[|prefix| - 1])
    ensures CaptureId(path, prefix, suffix) == Some(d) <==>
      IsDigits(d) && EndsWith(path, prefix + d + suffix)
  {
    if IsDigits(d) && EndsWith(path, prefix + d + suffix) {
      var x := path[..|path| - |prefix + d + suffix|];
      assert path == x + prefix + d + suffix;
      CaptureIdComplete(x, prefix, d, suffix);
    }
  }

  lemma CaptureIdComplete(x: string, prefix: string, d: string, suffix: string)
    requires IsDigits(d) && |prefix| > 0 && !IsDigit(prefix[|prefix| - 1])
    ensures CaptureId(x + prefix + d + suffix, prefix, suffix) == Some(d)
  {
    var path := x + prefix + d + suffix;
    var head := x + prefix + d;
    assert path[|path| - |suffix|..] == suffix;
    assert path[..|path| - |suffix|] == head;
    TrailingDigitsAfter(x + prefix, d);
    assert head[..|head| - |d|] == x + prefix;
    assert head[|head| - |d|..] == d;
  }

  lemma {:induction false} TrailingDigitsAfter(a: string, d: string)
    requires |a| > 0 && !IsDigit(a[|a| - 1])
    requires forall i :: 0 <= i < |d| ==> IsDigit(d[i])
    ensures TrailingDigits(a + d) == |d|
  {
    if d == [] {
      assert a + d == a;
    } else {
      var d' := d[..|d| - 1];
      assert (a + d)[..|a + d| - 1] == a + d';
      TrailingDigitsAfter(a, d');
    }
  }

  // ---------------------------------------------------------------------------
  // What the controllers share: the request body, the outcome of an awaited
  // service call, and the reply built from that outcome.

  /**
   * `JSON.parse(event.body || "{}")` followed by destructuring its fields:
   * an absent or empty body reads as "{}"; text the parser rejects throws a
   * SyntaxError, and a body of `null` throws a TypeError when destructured.
   */
  function ReadBody(body: Option<string>, parse: string -> Option<JsValue>): (r: Outcome<JsValue>)
    ensures r.Returned? ==> r.value != JsNull
    ensures r == Threw(SyntaxError) <==> parse(if TruthyText(body) then body.value else "{}").None?
    ensures r.Returned? <==> exists v :: v != JsNull && parse(if TruthyText(body) then body.value else "{}") == Some(v)
    ensures !TruthyText(body) && parse("{}") == Some(JsObject(map[])) ==> r == Returned(JsObject(map[]))
  {
    match parse(if TruthyText(body) then body.value else "{}")
    case None => Threw(SyntaxError)
    case Some(JsNull) => Threw(TypeError)
    case Some(v) => Returned(v)
  }

  /** What an awaited service call rejected with: an error with an optional message and its `String` text, or null. */
  datatype Rejection = Rejection(message: Option<string>, text: string) | NullRejection

  /** The settled value of an awaited service call. */
  datatype ServiceOutcome = Resolved(value: JsValue) | Rejected(reason: Rejection)

  /** `error.message || String(error)` for an error that is not null. */
  function ErrorText(e: Rejection): (t: string)
    requires e.Rejection?
    ensures TruthyText(e.message) ==> t == e.message.value
    ensures !TruthyText(e.message) ==> t == e.text
  {
    if TruthyText(e.message) then e.message.value else e.text
  }

  /**
   * The try/catch every controller wraps around its service call: the
   * success status with the body built from the resolved value, or 500 with
   * `{ error: failure }` whatever the call rejected with.
   */
  function Settle(o: ServiceOutcome, ok: int, okBody: JsValue -> Body, failure: string): (r: Response)
    ensures r.status == 500 <==> o.Rejected? || ok == 500
    ensures o.Resolved? ==> r == Response(ok, okBody(o.value))
    ensures o.Rejected? ==> r == Response(500, ErrorBody(failure))
  {
    match o
    case Resolved(v) => Response(ok, okBody(v))
    case Rejected(_) => Response(500, ErrorBody(failure))
  }

  /**
   * The id a controller reads with the end-anchored pattern
   * `prefix(\d+)suffix$`: `Number` of the captured digits (exact, however
   * many there are), or undefined when the pattern does not match.
   */
  function IdFrom(path: string, prefix: string, suffix: string): (r: Option<nat>)
    ensures r.Some? <==> MatchesId(Some(path), prefix, suffix)
    ensures r.Some? ==> r.value == ParseDecimal(CaptureId(path, prefix, suffix).value)
  {
    match CaptureId(path, prefix, suffix)
    case None => None
    case Some(d) => Some(ParseDecimal(d))
  }

  /** Writing n in decimal between prefix and suffix, after any leading text, gives back n. */
  lemma IdFromDecimal(x: string, prefix: string, n: nat, suffix: string)
    requires |prefix| > 0 && !IsDigit(prefix[|prefix| - 1])
    ensures IdFrom(x + prefix + DecimalText(n) + suffix, prefix, suffix) == Some(n)
  {
    CaptureIdComplete(x, prefix, DecimalText(n), suffix);
    ParseDecimalText(n);
  }

  /** Without a digit string between prefix and suffix at the end of the path there is no id. */
  lemma IdFromNone(path: string, prefix: string, suffix: string)
    requires |prefix| > 0 && !IsDigit(prefix[|prefix| - 1])
    ensures IdFrom(path, prefix, suffix).None? <==>
      forall d :: IsDigits(d) ==> !EndsWith(path, prefix + d + suffix)
  {
    var c := CaptureId(path, prefix, suffix);
    if c.Some? {
      CaptureIdExact(path, prefix, c.value, suffix);
    } else {
      forall d | IsDigits(d) ensures !EndsWith(path, prefix + d + suffix) {
        CaptureIdExact(path, prefix, d, suffix);
      }
    }
  }

  /**
   * A path an id pattern matches ends with the pattern's suffix, and, when
   * the suffix is empty, with a digit.
   */
  lemma IdTail(path: string, prefix: string, suffix: string)
    requires CaptureId(path, prefix, suffix).Some?
    ensures EndsWith(path, suffix)
    ensures suffix == "" ==> |path| > 0 && IsDigit(path[|path| - 1])
  {
    var d := CaptureId(path, prefix, suffix).value;
    if suffix == "" {
      assert prefix + d + suffix == prefix + d;
      EndsWithAt(path, prefix + d, 1);
    }
  }
}
