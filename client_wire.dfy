/** How `clientDo` (client/client.go) turns one driver call into an HTTP request, and how it
    turns the HTTP response back into a body or an error. The HTTP exchange itself is not part
    of this model. */
module ClientWire {
  import opened Wrappers
  import opened Restconf
  import opened ClientAddress

  /** The resource part of a request URL: `<root module>:<path without module>`. */
  function Target(p: Path): string
  {
    p.root + ":" + p.StringNoModule()
  }

  /** A root-level rpc goes to the operations resource (section 3.3.2 of RFC 8040) unless the
      compliance options allow rpcs under the data resource. */
  predicate UsesOperations(c: ComplianceOptions, p: Path)
  {
    p.IsAction() && !c.allowRpcUnderData && p.IsRootLevel()
  }

  function Endpoint(a: Address, c: ComplianceOptions, p: Path): string
  {
    if UsesOperations(c, p) then a.operations else a.data
  }

  /** The full URL of a request: endpoint, target and, for non-empty parameters, a query. */
  function RequestUrl(a: Address, c: ComplianceOptions, p: Path, params: string): (u: string)
    ensures Endpoint(a, c, p) + Target(p) <= u
    ensures params == "" <==> u == Endpoint(a, c, p) + Target(p)
  {
    var url := Endpoint(a, c, p) + Target(p);
    if params != "" then url + "?" + params else url
  }

  /** The Content-Type and Accept headers of a request. */
  datatype Headers = Headers(contentType: string, accept: string)

  function RequestHeaders(c: ComplianceOptions): (h: Headers)
    ensures h.contentType == h.accept
    ensures h.accept == PlainJsonMimeType <==> c == Simplified
    ensures h.accept == YangDataJsonMimeType <==> c != Simplified
  {
    if c == Simplified then Headers(PlainJsonMimeType, PlainJsonMimeType)
    else Headers(YangDataJsonMimeType, YangDataJsonMimeType)
  }

  /** The part of a URL before its first '?' and the part after it. */
  function SplitQuery(u: string): (r: (string, string))
    ensures '?' !in u ==> r == (u, "")
    ensures '?' !in r.0
  {
    if |u| == 0 then ("", "")
    else if u[0] == '?' then ("", u[1..])
    else
      var rest := SplitQuery(u[1..]);
      assert [u[0]] + u[1..] == u;
      ([u[0]] + rest.0, rest.1)
  }

  lemma {:induction false} SplitQueryAt(prefix: string, query: string)
    requires '?' !in prefix
    ensures SplitQuery(prefix + "?" + query) == (prefix, query)
  {
    if |prefix| == 0 {
      assert prefix + "?" + query == ['?'] + query;
    } else {
      assert (prefix + "?" + query)[1..] == prefix[1..] + "?" + query;
      SplitQueryAt(prefix[1..], query);
      assert [prefix[0]] + prefix[1..] == prefix;
    }
  }

  /** The endpoint choice: a request URL lies under the operations resource exactly when the
      target is a root-level rpc and rpcs under data are not allowed, and under the data
      resource otherwise. */
  lemma RequestEndpoint(a: Address, c: ComplianceOptions, p: Path, params: string)
    ensures DerivedFromBase(a) ==>
              && (a.operations <= RequestUrl(a, c, p, params) <==> UsesOperations(c, p))
              && (a.data <= RequestUrl(a, c, p, params) <==> !UsesOperations(c, p))
  {
    if !DerivedFromBase(a) {
      return;
    }
    EndpointsDistinct(a);
    var u := RequestUrl(a, c, p, params);
    var e := Endpoint(a, c, p);
    assert e <= u;
    var n := |a.base|;
    assert a.data[n] == 'd' && a.operations[n] == 'o';
    if UsesOperations(c, p) {
      assert u[n] == 'o';
    } else {
      assert u[n] == 'd';
    }
  }

  /** The query string round-trips: splitting the URL at its first '?' gives back the endpoint
      and target, and exactly the parameters passed in (none when there were none). */
  lemma QueryRoundTrip(a: Address, c: ComplianceOptions, p: Path, params: string)
    ensures '?' !in Endpoint(a, c, p) + Target(p) ==>
              SplitQuery(RequestUrl(a, c, p, params)) == (Endpoint(a, c, p) + Target(p), params)
  {
    if '?' !in Endpoint(a, c, p) + Target(p) && params != "" {
      SplitQueryAt(Endpoint(a, c, p) + Target(p), params);
    }
  }

  datatype HttpRequest = HttpRequest(verb: string, url: string, headers: Headers, payload: string)

  /** The request `clientDo(verb, params, p, payload)` sends: the verb and payload as given; a
      URL under the operations resource exactly for root-level rpcs (when rpcs under data are
      not allowed) and under the data resource otherwise, whose query is exactly `params`; and
      equal Content-Type and Accept headers, plain JSON exactly in simplified mode. */
  function NewRequest(a: Address, c: ComplianceOptions, verb: string, params: string,
                      p: Path, payload: string): (r: HttpRequest)
    ensures r.verb == verb && r.payload == payload
    ensures DerivedFromBase(a) ==> (a.operations <= r.url <==> UsesOperations(c, p))
    ensures DerivedFromBase(a) ==> (a.data <= r.url <==> !UsesOperations(c, p))
    ensures '?' !in Endpoint(a, c, p) + Target(p) ==> SplitQuery(r.url) == (Endpoint(a, c, p) + Target(p), params)
    ensures r.headers.contentType == r.headers.accept
    ensures r.headers.accept == PlainJsonMimeType <==> c == Simplified
  {
    RequestEndpoint(a, c, p, params);
    QueryRoundTrip(a, c, p, params);
    HttpRequest(verb, RequestUrl(a, c, p, params), RequestHeaders(c), payload)
  }

  // ---- responses ----

  /** What the HTTP client hands back: the status code, the body stream (absent when
      `resp.Body == nil`) and `resp.ContentLength` (-1 when unknown). */
  datatype HttpResponse = HttpResponse(status: nat, body: Option<string>, contentLength: int)

  function BodyText(resp: HttpResponse): string
  {
    if resp.body.Some? then resp.body.value else ""
  }

  /** The response handling of `clientDo` as written: only status 200 is a success; a success
      without a body, or with `ContentLength` 0, is "no content" (`nil, nil`). */
  function ResponseOutcomeAsWritten(resp: HttpResponse): (r: Result<Option<string>, Error>)
    ensures r.Failure? <==> resp.status != 200
    ensures r.Failure? ==> r.error == Status(resp.status, BodyText(resp))
    ensures r == Success(None) <==> resp.status == 200 && (resp.body.None? || resp.contentLength == 0)
    ensures r.Success? && r.value.Some? ==> r.value == resp.body
  {
    if resp.status != 200 then Failure(Status(resp.status, BodyText(resp)))
    else if resp.body.None? || resp.contentLength == 0 then Success(None)
    else Success(resp.body)
  }

  /** RESTCONF answers a successful create with 201 and a successful update or delete with
      204 (sections 4.4.1, 4.5 and 4.7 of RFC 8040); the code as written reports both as
      failures. */
  lemma NoContentRejectedAsWritten()
    ensures ResponseOutcomeAsWritten(HttpResponse(204, Some(""), 0)) == Failure(Status(204, ""))
    ensures ResponseOutcomeAsWritten(HttpResponse(201, Some(""), 0)).Failure?
  {
  }

  /** The sentinel test `errors.Is(err, fc.NotFoundError)` on the errors `clientDo` returns as
      written: its status error is built with `fmt.Errorf("(%d) %s")`, which wraps nothing. */
  predicate IsNotFoundAsWritten(e: Error)
  {
    e.NotFound?
  }

  /** As written, no response ever produces an error that is "not found", not even a 404. */
  lemma NotFoundNeverReportedAsWritten(resp: HttpResponse)
    ensures ResponseOutcomeAsWritten(resp).Failure? ==> !IsNotFoundAsWritten(ResponseOutcomeAsWritten(resp).error)
    ensures resp.status == 404 ==> ResponseOutcomeAsWritten(resp).Failure?
  {
  }

  predicate IsSuccessStatus(status: nat)
  {
    200 <= status < 300
  }

  /** The corrected response handling the rest of the model uses: every 2xx status succeeds,
      204 and empty bodies are "no content", and a failure keeps its status (so a 404 is
      recognised as "not found" through `Error.IsNotFound`). */
  function ResponseOutcome(resp: HttpResponse): (r: Result<Option<string>, Error>)
    ensures r.Failure? <==> !IsSuccessStatus(resp.status)
    ensures r.Failure? ==> r.error == Status(resp.status, BodyText(resp))
    ensures r.Failure? ==> (r.error.IsNotFound() <==> resp.status == 404)
    ensures r == Success(None) <==>
              IsSuccessStatus(resp.status) && (resp.status == 204 || resp.body.None? || resp.contentLength == 0)
    ensures r.Success? && r.value.Some? ==> r.value == resp.body
  {
    if !IsSuccessStatus(resp.status) then Failure(Status(resp.status, BodyText(resp)))
    else if resp.status == 204 || resp.body.None? || resp.contentLength == 0 then Success(None)
    else Success(resp.body)
  }

  /** The corrected handling agrees with the written one whenever the status is 200. */
  lemma ResponseOutcomeAgreesOn200(resp: HttpResponse)
    requires resp.status == 200
    ensures ResponseOutcome(resp) == ResponseOutcomeAsWritten(resp)
  {
  }

  // ---- the status error message ----

  function DigitChar(d: nat): char
    requires d < 10
  {
    "0123456789"[d]
  }

  function DigitValue(ch: char): nat
  {
    if '0' <= ch <= '9' then (ch - '0') as nat else 0
  }

  predicate IsDigit(ch: char)
  {
    '0' <= ch <= '9'
  }

  /** The decimal digits of a natural number, as `%d` prints it. */
  function Decimal(n: nat): (s: string)
    ensures |s| > 0 && forall i :: 0 <= i < |s| ==> IsDigit(s[i])
    decreases n
  {
    if n < 10 then [DigitChar(n)] else Decimal(n / 10) + [DigitChar(n % 10)]
  }

  function DecimalValue(s: string): nat
  {
    if |s| == 0 then 0 else DecimalValue(s[..|s| - 1]) * 10 + DigitValue(s[|s| - 1])
  }

  lemma {:induction false} DecimalRoundTrip(n: nat)
    ensures DecimalValue(Decimal(n)) == n
    decreases n
  {
    if n >= 10 {
      var s := Decimal(n / 10) + [DigitChar(n % 10)];
      assert s[..|s| - 1] == Decimal(n / 10);
      DecimalRoundTrip(n / 10);
    }
  }

  /** The text of a status error, `fmt.Errorf("(%d) %s", code, body)`. */
  function StatusMessage(code: nat, body: string): string
  {
    "(" + Decimal(code) + ") " + body
  }

  /** The index of the first ')' in `s` at or after `from`, or |s| when there is none. */
  function CloseParen(s: string, from: nat): (k: nat)
    requires from <= |s|
    ensures from <= k <= |s|
    ensures k < |s| ==> s[k] == ')'
    ensures forall i :: from <= i < k ==> s[i] != ')'
    decreases |s| - from
  {
    if from == |s| || s[from] == ')' then from else CloseParen(s, from + 1)
  }

  /** Reads a status message back into its code and body. */
  function ParseStatusMessage(m: string): Option<(nat, string)>
  {
    if |m| < 2 || m[0] != '(' then None
    else
      var k := CloseParen(m, 1);
      if k + 1 < |m| && m[k + 1] == ' ' then Some((DecimalValue(m[1..k]), m[k + 2..]))
      else None
  }

  /** The status message keeps both the code and the body recoverable. */
  lemma StatusMessageRoundTrip(code: nat, body: string)
    ensures ParseStatusMessage(StatusMessage(code, body)) == Some((code, body))
  {
    var d := Decimal(code);
    var m := StatusMessage(code, body);
    assert m == "(" + d + ") " + body;
    assert forall i :: 1 <= i < 1 + |d| ==> m[i] == d[i - 1] && m[i] != ')';
    assert m[1 + |d|] == ')';
    assert CloseParen(m, 1) == 1 + |d|;
    assert m[1..1 + |d|] == d;
    assert m[1 + |d| + 2..] == body;
    DecimalRoundTrip(code);
  }
}
