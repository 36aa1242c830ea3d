/** The request layer every service goes through: the URL with its
    ":name" placeholders filled in, the headers (the bearer token and the
    JSON defaults), and the shaping of the response into
    `{ data, status, message }` or an error. The percent-encoding of
    parameter values is a parameter, and the HTTP exchange is an input. */
module BaseService {
  import opened Wrappers
  import opened Text
  import opened Model

  /** The URL after substituting the parameters one after another: for
      each, the first ":key" is replaced by the encoded value. */
  function Substituted(url: string, params: seq<(string, string)>, encode: string -> string): string
    decreases |params|
  {
    if params == [] then url
    else
      var (key, value) := params[0];
      Substituted(ReplaceFirst(url, ":" + key, encode(value)), params[1..], encode)
  }

  /** `buildUrl`: base URL and endpoint, then each parameter in turn. */
  method BuildUrl(baseUrl: string, endpoint: string, params: Option<seq<(string, string)>>, encode: string -> string)
    returns (url: string)
    ensures params.None? ==> url == baseUrl + endpoint
    ensures params.Some? ==> url == Substituted(baseUrl + endpoint, params.value, encode)
  {
    url := baseUrl + endpoint;
    if params.Some? {
      var entries := params.value;
      var i := 0;
      while i < |entries|
        invariant 0 <= i <= |entries|
        invariant Substituted(url, entries[i..], encode) == Substituted(baseUrl + endpoint, entries, encode)
      {
        var (key, value) := entries[i];
        assert entries[i..][1..] == entries[i + 1..];
        url := ReplaceFirst(url, ":" + key, encode(value));
        i := i + 1;
      }
    }
  }

  /** A placeholder that does not occur leaves the URL as it is. */
  lemma AbsentPlaceholder(url: string, key: string, value: string)
    requires forall j :: 0 <= j ==> !OccursAt(url, ":" + key, j)
    ensures ReplaceFirst(url, ":" + key, value) == url
  {
  }

  /** A placeholder after a prefix without colons is the first occurrence:
      it, and only it, is replaced by the value. */
  lemma ReplacedPlaceholder(prefix: string, key: string, rest: string, value: string)
    requires Free(prefix, ':')
    ensures ReplaceFirst(prefix + ":" + key + rest, ":" + key, value) == prefix + value + rest
  {
    var url := prefix + ":" + key + rest;
    var p := ":" + key;
    assert url == prefix + p + rest;
    assert OccursAt(url, p, |prefix|) by {
      assert url[|prefix|..|prefix| + |p|] == p;
    }
    forall j | 0 <= j < |prefix| ensures !OccursAt(url, p, j) {
      assert url[j] == prefix[j] && prefix[j] != ':' && p[0] == ':';
      assert j + |p| <= |url| ==> url[j..j + |p|][0] == url[j];
    }
    var i := IndexOf(url, p);
    assert i == Some(|prefix|);
    assert url[..|prefix|] == prefix;
    assert url[|prefix| + |p|..] == rest;
  }

  // ---------------------------------------------------------------------
  // Headers
  // ---------------------------------------------------------------------

  /** A `Headers` object. It keeps names in lower case, which is how the
      names below are written. */
  class Headers {
    var entries: map<string, string>

    constructor (init: map<string, string>)
      ensures entries == init
    {
      entries := init;
    }

    predicate Has(name: string)
      reads this
    {
      name in entries
    }

    method Set(name: string, value: string)
      modifies this
      ensures entries == old(entries)[name := value]
    {
      entries := entries[name := value];
    }
  }

  /** The headers a request is sent with: the caller's, then
      "Authorization: Bearer <token>" when a token is stored, "Accept:
      application/json" unless an Accept header was given, and
      "Content-Type: application/json" when there is a body and no
      Content-Type was given. */
  function RequestHeaders(custom: map<string, string>, token: Option<string>, hasBody: bool)
    : (h: map<string, string>)
    ensures "authorization" in h <==> Truthy(token) || "authorization" in custom
    ensures Truthy(token) ==> h["authorization"] == "Bearer " + token.value
    ensures !Truthy(token) && "authorization" in custom ==> h["authorization"] == custom["authorization"]
    ensures "accept" in h
    ensures h["accept"] == if "accept" in custom then custom["accept"] else "application/json"
    ensures "content-type" in h <==> "content-type" in custom || hasBody
    ensures "content-type" in h ==>
      h["content-type"] == if "content-type" in custom then custom["content-type"] else "application/json"
    ensures forall name :: name in custom && name !in {"authorization", "accept", "content-type"} ==>
      name in h && h[name] == custom[name]
    ensures forall name :: name in h ==> name in custom || name in {"authorization", "accept", "content-type"}
  {
    var withAuth := if Truthy(token) then custom["authorization" := "Bearer " + token.value] else custom;
    var withAccept := if "accept" in withAuth then withAuth else withAuth["accept" := "application/json"];
    if hasBody && "content-type" !in withAccept then withAccept["content-type" := "application/json"]
    else withAccept
  }

  /** `_getAuthenticatedHeaders`: the caller's headers (none for
      undefined) with the bearer token when one is stored. */
  method AuthenticatedHeaders(custom: Option<map<string, string>>, token: Option<string>) returns (h: Headers)
    ensures fresh(h)
    ensures Truthy(token) ==> h.entries == (if custom.Some? then custom.value else map[])["authorization" := "Bearer " + token.value]
    ensures !Truthy(token) ==> h.entries == if custom.Some? then custom.value else map[]
  {
    h := new Headers(if custom.Some? then custom.value else map[]);
    if Truthy(token) {
      h.Set("authorization", "Bearer " + token.value);
    }
  }

  /** The header preparation of `makeRequest`. */
  method PrepareHeaders(custom: Option<map<string, string>>, token: Option<string>, body: Option<string>)
    returns (h: Headers)
    ensures fresh(h)
    ensures h.entries == RequestHeaders(if custom.Some? then custom.value else map[], token, Truthy(body))
  {
    h := AuthenticatedHeaders(custom, token);
    if !h.Has("accept") {
      h.Set("accept", "application/json");
    }
    if Truthy(body) && !h.Has("content-type") {
      h.Set("content-type", "application/json");
    }
  }

  // ---------------------------------------------------------------------
  // Responses
  // ---------------------------------------------------------------------

  /** What came back: the status, whether it is in the 2xx range, the
      status text, the `detail` of an error body (None when the body is not
      JSON or has none), and the parsed body (a failure when it is not
      JSON). */
  datatype HttpResponse = HttpResponse(status: int, ok: bool, statusText: string, errorDetail: Option<string>, body: Outcome<Json>)

  function ErrorDetail(response: HttpResponse): (d: string)
    ensures Truthy(response.errorDetail) ==> d == response.errorDetail.value
    ensures !Truthy(response.errorDetail) ==> d == response.statusText
  {
    if Truthy(response.errorDetail) then response.errorDetail.value else response.statusText
  }

  function ApiErrorMessage(status: int, detail: string): string
  {
    "API error! status: " + IntToString(status) + " - " + detail
  }

  /** The error message names the status, which reads back as a number,
      and ends with the detail. */
  lemma ApiErrorMessageParts(status: int, detail: string)
    ensures var m := ApiErrorMessage(status, detail);
      var head := "API error! status: ";
      && StartsWith(m, head)
      && m[|m| - |detail|..] == detail
      && ParseInt(m[|head|..|head| + |IntToString(status)|]) == Some(status)
  {
    var head := "API error! status: ";
    var m := ApiErrorMessage(status, detail);
    assert m == head + IntToString(status) + " - " + detail;
    assert m[..|head|] == head;
    assert m[|head|..|head| + |IntToString(status)|] == IntToString(status);
    ParseIntRoundTrip(status);
  }

  /** The response shaping of `makeRequest`: a non-2xx status throws the
      API error; a DELETE has no data; otherwise the parsed body (whose
      parse failure propagates). The message names the method, "GET" when
      none was given. */
  function ResponseOf(requestMethod: Option<string>, response: HttpResponse): (r: Outcome<ApiResponse<Json>>)
    ensures !response.ok ==> r == Throw(ErrorObject("Error", ApiErrorMessage(response.status, ErrorDetail(response))))
    ensures response.ok && requestMethod == Some("DELETE") ==> r.Ok? && r.value.data == JNull
    ensures response.ok && requestMethod != Some("DELETE") ==>
      (r.Ok? <==> response.body.Ok?) && (r.Ok? ==> r.value.data == response.body.value)
        && (r.Throw? ==> r.thrown == response.body.thrown)
    ensures r.Ok? ==> (r.value.status == response.status
      && r.value.message == (if Truthy(requestMethod) then requestMethod.value else "GET") + " Success")
  {
    if !response.ok then Throw(ErrorObject("Error", ApiErrorMessage(response.status, ErrorDetail(response))))
    else
      var message := (if Truthy(requestMethod) then requestMethod.value else "GET") + " Success";
      if requestMethod == Some("DELETE") then Ok(ApiResponse(JNull, response.status, message))
      else match response.body
        case Ok(data) => Ok(ApiResponse(data, response.status, message))
        case Throw(t) => Throw(t)
  }

  /** The response shaping of `makeFileRequest`. */
  function FileResponseOf(response: HttpResponse): (r: Outcome<ApiResponse<Json>>)
    ensures !response.ok ==>
      r == Throw(ErrorObject("Error", "File upload failed! status: " + IntToString(response.status) + " - " + ErrorDetail(response)))
    ensures response.ok ==> (r.Ok? <==> response.body.Ok?)
    ensures r.Ok? ==> r.value == ApiResponse(response.body.value, response.status, "File upload completed")
  {
    if !response.ok then
      Throw(ErrorObject("Error", "File upload failed! status: " + IntToString(response.status) + " - " + ErrorDetail(response)))
    else match response.body
      case Ok(data) => Ok(ApiResponse(data, response.status, "File upload completed"))
      case Throw(t) => Throw(t)
  }

  /** The options of a request that `makeRequest` looks at. */
  datatype RequestOptions = RequestOptions(requestMethod: Option<string>, headers: Option<map<string, string>>, body: Option<string>)

  /** `makeRequest`: the URL and headers it sends (as ghost results; the
      exchange itself is the `fetched` input, the response or the value
      the fetch rejected with) and the shaped response. */
  method MakeRequest(
    baseUrl: string, endpoint: string, options: RequestOptions, params: Option<seq<(string, string)>>,
    token: Option<string>, encode: string -> string, fetched: Outcome<HttpResponse>)
    returns (r: Outcome<ApiResponse<Json>>, ghost sentUrl: string, ghost sentHeaders: map<string, string>)
    ensures sentUrl == if params.Some? then Substituted(baseUrl + endpoint, params.value, encode) else baseUrl + endpoint
    ensures sentHeaders == RequestHeaders(if options.headers.Some? then options.headers.value else map[], token, Truthy(options.body))
    ensures fetched.Throw? ==> r == Throw(fetched.thrown)
    ensures fetched.Ok? ==> r == ResponseOf(options.requestMethod, fetched.value)
  {
    var url := BuildUrl(baseUrl, endpoint, params, encode);
    var headers := PrepareHeaders(options.headers, token, options.body);
    sentUrl, sentHeaders := url, headers.entries;
    match fetched {
      case Throw(t) =>
        r := Throw(t);
      case Ok(response) =>
        r := ResponseOf(options.requestMethod, response);
    }
  }
}
