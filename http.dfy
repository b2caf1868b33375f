/**
 * The HTTP adapters of the C++ wrapper API: a `Response` whose header
 * multimap and status fields are updated in place, a `Request`, and the
 * conversions between them and the flat `zia::api::HttpResponse` and
 * `zia::api::HttpRequest` records, whose bodies are byte vectors while the
 * adapters' bodies are `std::string`s.
 */
module Http {
  import opened Primitives

  /** `zia::api::http::Version`, used only as an opaque value. */
  type Version(==)

  /** `zia::api::http::Method`, used only as an opaque value. */
  type Method(==)

  /** The flat records' header map: one value per name. */
  type HttpHeaders = map<string, string>

  /** The adapters' header multimap: a list of values per name, in the order they were added. */
  type HeaderMap = map<string, seq<string>>

  /** `zia::api::HttpResponse`, fields in aggregate-initialisation order. */
  datatype HttpResponse = HttpResponse(version: Version, headers: HttpHeaders, body: seq<Byte>, status: Int32, reason: string)

  /** `zia::api::HttpRequest`, fields in aggregate-initialisation order. */
  datatype HttpRequest = HttpRequest(version: Version, headers: HttpHeaders, body: seq<Byte>, httpMethod: Method, uri: string)

  /** `std::transform` of a byte vector into a string, one `static_cast<char>` per byte. */
  function BytesToChars(bytes: seq<Byte>): (chars: seq<CChar>)
    ensures |chars| == |bytes|
    ensures forall i :: 0 <= i < |bytes| ==> chars[i] == ByteToChar(bytes[i])
  {
    if bytes == [] then [] else [ByteToChar(bytes[0])] + BytesToChars(bytes[1..])
  }

  /** `std::transform` of a string into a byte vector, one `static_cast<std::byte>` per char. */
  function CharsToBytes(chars: seq<CChar>): (bytes: seq<Byte>)
    ensures |bytes| == |chars|
    ensures forall i :: 0 <= i < |chars| ==> bytes[i] == CharToByte(chars[i])
  {
    if chars == [] then [] else [CharToByte(chars[0])] + CharsToBytes(chars[1..])
  }

  /** A byte body survives the trip through a string body. */
  lemma BytesCharsRoundTrip(bytes: seq<Byte>)
    ensures CharsToBytes(BytesToChars(bytes)) == bytes
  {
  }

  /** A string body survives the trip through a byte body. */
  lemma CharsBytesRoundTrip(chars: seq<CChar>)
    ensures BytesToChars(CharsToBytes(chars)) == chars
  {
  }

  /** The values listed under `name`; `[]` when the name is absent. */
  function ValuesOf(headers: HeaderMap, name: string): seq<string>
  {
    if name in headers then headers[name] else []
  }

  /**
   * The effect of `headers[name].push_back(value)`: `operator[]` creates an
   * empty list for an absent name, and the value goes at its end.
   */
  function WithHeader(headers: HeaderMap, name: string, value: string): (r: HeaderMap)
    ensures name in r
    ensures r[name] == ValuesOf(headers, name) + [value]
    ensures r - {name} == headers - {name}
  {
    headers[name := ValuesOf(headers, name) + [value]]
  }

  /**
   * The effect of the loop in `addHeaders`: every value pushed onto `name`'s
   * list in order. With no values the loop never evaluates `headers[name]`,
   * so no entry is created.
   */
  function WithHeaders(headers: HeaderMap, name: string, values: seq<string>): (r: HeaderMap)
    ensures name in r <==> name in headers || values != []
    ensures ValuesOf(r, name) == ValuesOf(headers, name) + values
    ensures r - {name} == headers - {name}
  {
    if values == [] then headers else headers[name := ValuesOf(headers, name) + values]
  }

  /** `addHeader` once per value, in order. */
  function WithEachHeader(headers: HeaderMap, name: string, values: seq<string>): HeaderMap
    decreases |values|
  {
    if values == [] then headers else WithEachHeader(WithHeader(headers, name, values[0]), name, values[1..])
  }

  /** `addHeaders(name, values)` does what one `addHeader(name, v)` per value, in order, does. */
  lemma {:induction false} WithHeadersIsEachHeader(headers: HeaderMap, name: string, values: seq<string>)
    ensures WithHeaders(headers, name, values) == WithEachHeader(headers, name, values)
    decreases |values|
  {
    if values != [] {
      var once := WithHeader(headers, name, values[0]);
      WithHeadersIsEachHeader(once, name, values[1..]);
      assert ValuesOf(once, name) + values[1..] == ValuesOf(headers, name) + values;
      assert WithHeaders(once, name, values[1..]) == WithHeaders(headers, name, values);
    }
  }

  /** Adding `values` and then one more value is adding all of them at once. */
  lemma WithHeadersThenOne(headers: HeaderMap, name: string, values: seq<string>, value: string)
    ensures WithHeader(WithHeaders(headers, name, values), name, value) == WithHeaders(headers, name, values + [value])
  {
    var before := WithHeaders(headers, name, values);
    assert ValuesOf(before, name) + [value] == ValuesOf(headers, name) + (values + [value]);
  }

  /** A single value added with `addHeaders` is added exactly as `addHeader` adds it. */
  lemma WithHeadersSingle(headers: HeaderMap, name: string, value: string)
    ensures WithHeaders(headers, name, [value]) == WithHeader(headers, name, value)
  {
  }

  /** Adding two values under one name keeps both, in call order, after the earlier ones. */
  lemma WithHeaderTwiceKeepsOrder(headers: HeaderMap, name: string, first: string, second: string)
    ensures WithHeader(WithHeader(headers, name, first), name, second)[name] == ValuesOf(headers, name) + [first, second]
  {
  }

  /** The effect of `headers.erase(name)`. */
  function WithoutHeader(headers: HeaderMap, name: string): (r: HeaderMap)
    ensures name !in r
    ensures r - {name} == headers - {name}
  {
    headers - {name}
  }

  /** Erasing a name twice is erasing it once; erasing an absent name changes nothing. */
  lemma WithoutHeaderIdempotent(headers: HeaderMap, name: string)
    ensures WithoutHeader(WithoutHeader(headers, name), name) == WithoutHeader(headers, name)
    ensures name !in headers ==> WithoutHeader(headers, name) == headers
  {
  }

  /** `zia::apipp::Response`: an HTTP response whose headers and status are updated in place. */
  class Response {
    /** Private, initialised `false`; no method assigns it. */
    var useRawBody: bool
    const version: Version
    var headers: HeaderMap
    var body: seq<CChar>
    var rawBody: seq<Byte>
    var statusCode: Int32
    var statusReason: string

    /** The constructor: no headers and an empty string body. */
    constructor (version: Version, rawBody: seq<Byte>, statusCode: Int32, statusReason: string)
      ensures this.version == version && this.rawBody == rawBody
      ensures this.statusCode == statusCode && this.statusReason == statusReason
      ensures headers == map[] && body == [] && !useRawBody
    {
      this.useRawBody := false;
      this.version := version;
      this.headers := map[];
      this.rawBody := rawBody;
      this.statusCode := statusCode;
      this.statusReason := statusReason;
      this.body := [];
    }

    /** `addHeader`: `value` goes at the end of `name`'s list; nothing else changes. */
    method AddHeader(name: string, value: string) returns (self: Response)
      modifies this`headers
      ensures self == this
      ensures headers == WithHeader(old(headers), name, value)
    {
      headers := headers[name := ValuesOf(headers, name) + [value]];
      self := this;
    }

    /** `addHeaders`: every one of `values` goes, in order, at the end of `name`'s list. */
    method AddHeaders(name: string, values: seq<string>) returns (self: Response)
      modifies this`headers
      ensures self == this
      ensures headers == WithHeaders(old(headers), name, values)
    {
      for i := 0 to |values|
        invariant headers == WithHeaders(old(headers), name, values[..i])
      {
        assert values[..i + 1] == values[..i] + [values[i]];
        WithHeadersThenOne(old(headers), name, values[..i], values[i]);
        headers := headers[name := ValuesOf(headers, name) + [values[i]]];
      }
      assert values[..|values|] == values;
      self := this;
    }

    /** `removeAllHeadersByName`: the name and all its values are gone; nothing else changes. */
    method RemoveAllHeadersByName(name: string) returns (self: Response)
      modifies this`headers
      ensures self == this
      ensures headers == WithoutHeader(old(headers), name)
    {
      headers := headers - {name};
      self := this;
    }

    /** `setStatus`: the new code and reason; nothing else changes. */
    method SetStatus(code: Int32, reason: string) returns (self: Response)
      modifies this`statusCode, this`statusReason
      ensures self == this
      ensures statusCode == code && statusReason == reason
    {
      statusCode := code;
      statusReason := reason;
      self := this;
    }

    /**
     * `toBasicHttpResponse`: no header is carried over; the body sent is the
     * raw body if `useRawBody` is set (it never is), else the string body
     * converted char by char.
     */
    function ToBasicHttpResponse(): (r: HttpResponse)
      reads this
      ensures r.version == version && r.status == statusCode && r.reason == statusReason
      ensures r.headers == map[]
      ensures useRawBody ==> r.body == rawBody
      ensures !useRawBody ==> |r.body| == |body| && BytesToChars(r.body) == body
    {
      if useRawBody then
        HttpResponse(version, map[], rawBody, statusCode, statusReason)
      else
        CharsBytesRoundTrip(body);
        HttpResponse(version, map[], CharsToBytes(body), statusCode, statusReason)
    }

    /**
     * `fromBasicHttpResponse`: a fresh response with the basic body both as
     * its raw body and, byte by byte, as its string body; no headers. Sent
     * back, it gives the basic response with its headers dropped.
     */
    static method FromBasicHttpResponse(basic: HttpResponse) returns (response: Response)
      ensures fresh(response)
      ensures response.version == basic.version && response.headers == map[] && !response.useRawBody
      ensures response.rawBody == basic.body && response.body == BytesToChars(basic.body)
      ensures response.statusCode == basic.status && response.statusReason == basic.reason
      ensures response.ToBasicHttpResponse() == basic.(headers := map[])
    {
      response := new Response(basic.version, basic.body, basic.status, basic.reason);
      response.body := response.body + BytesToChars(basic.body);
      assert response.body == BytesToChars(basic.body);
      BytesCharsRoundTrip(basic.body);
    }
  }

  /** `zia::apipp::Request`: an HTTP request; version, method and URI are fixed at construction. */
  class Request {
    /** Private, initialised `false`; no method assigns it. */
    var useRawBody: bool
    const version: Version
    var headers: HeaderMap
    var body: seq<CChar>
    var rawBody: seq<Byte>
    const httpMethod: Method
    const uri: string

    /** The constructor: no headers and an empty string body. */
    constructor (version: Version, rawBody: seq<Byte>, httpMethod: Method, uri: string)
      ensures this.version == version && this.rawBody == rawBody
      ensures this.httpMethod == httpMethod && this.uri == uri
      ensures headers == map[] && body == [] && !useRawBody
    {
      this.useRawBody := false;
      this.version := version;
      this.rawBody := rawBody;
      this.headers := map[];
      this.httpMethod := httpMethod;
      this.uri := uri;
      this.body := [];
    }

    /**
     * `toBasicHttpRequest`: no header is carried over; the body sent is the
     * raw body if `useRawBody` is set (it never is), else the string body
     * converted char by char.
     */
    function ToBasicHttpRequest(): (r: HttpRequest)
      reads this
      ensures r.version == version && r.httpMethod == httpMethod && r.uri == uri
      ensures r.headers == map[]
      ensures useRawBody ==> r.body == rawBody
      ensures !useRawBody ==> |r.body| == |body| && BytesToChars(r.body) == body
    {
      if useRawBody then
        HttpRequest(version, map[], rawBody, httpMethod, uri)
      else
        CharsBytesRoundTrip(body);
        HttpRequest(version, map[], CharsToBytes(body), httpMethod, uri)
    }

    /**
     * `fromBasicHttpRequest`: a fresh request with the basic body both as its
     * raw body and, byte by byte, as its string body; no headers. Sent back,
     * it gives the basic request with its headers dropped.
     */
    static method FromBasicHttpRequest(basic: HttpRequest) returns (request: Request)
      ensures fresh(request)
      ensures request.version == basic.version && request.headers == map[] && !request.useRawBody
      ensures request.httpMethod == basic.httpMethod && request.uri == basic.uri
      ensures request.rawBody == basic.body && request.body == BytesToChars(basic.body)
      ensures request.ToBasicHttpRequest() == basic.(headers := map[])
    {
      request := new Request(basic.version, basic.body, basic.httpMethod, basic.uri);
      request.body := request.body + BytesToChars(basic.body);
      assert request.body == BytesToChars(basic.body);
      BytesCharsRoundTrip(basic.body);
    }
  }
}
