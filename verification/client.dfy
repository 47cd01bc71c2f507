/** The REST client: turns a filled-in request into a signed HTTP request
    (`parseRequest`) and sorts the HTTP result into success, transport error or
    API error (`callAPI`).

    What the client gets from outside is collected in an `Environment`: the
    clock reading and the outcome of `request.validate` as plain values, and
    `url.Values.Encode`, HMAC-SHA256, the HTTP exchange and JSON decoding as
    function-valued fields, so every property proved here holds whatever
    those library calls compute. */
module RestClient {
  import opened Common
  import opened Hex
  import opened Requests

  const BaseAPIMainURL: string := "https://api.binance.com"
  const UserAgent: string := "Binance/golang"

  const TimestampKey: string := "timestamp"
  const SignatureKey: string := "signature"
  const RecvWindowKey: string := "recvWindow"

  const APIKeyHeader: string := "X-MBX-APIKEY"
  const ContentTypeHeader: string := "Content-Type"
  const FormContentType: string := "application/x-www-form-urlencoded"

  const TwoTo64: int := 0x1_0000_0000_0000_0000

  /** `t.UnixNano() / int64(time.Millisecond)`: Go's integer division, which
      truncates toward zero, so the remainder takes the sign of the dividend. */
  function FormatTimestamp(unixNano: int64): (ms: int64)
    ensures var rem := unixNano as int - ms as int * 1_000_000;
      && -1_000_000 < rem < 1_000_000
      && (unixNano >= 0 ==> rem >= 0)
      && (unixNano <= 0 ==> rem <= 0)
  {
    var n := unixNano as int;
    (if n >= 0 then n / 1_000_000 else -((-n) / 1_000_000)) as int64
  }

  /** Go's `a - b` on int64: the mathematical difference, wrapped into range. */
  function Sub64(a: int64, b: int64): (r: int64)
    ensures (r as int - (a as int - b as int)) % TwoTo64 == 0
    ensures -0x8000_0000_0000_0000 <= a as int - b as int < 0x8000_0000_0000_0000 ==>
      r as int == a as int - b as int
  {
    var d := a as int - b as int;
    (if d >= 0x8000_0000_0000_0000 then d - TwoTo64
     else if d < -0x8000_0000_0000_0000 then d + TwoTo64
     else d) as int64
  }

  /** The HTTP request handed to the transport. */
  datatype HttpRequest = HttpRequest(httpMethod: string, url: string, header: Header, body: string)

  /** How one HTTP exchange ended. */
  datatype Exchange =
    | RequestRejected(err: Error)   // http.NewRequest refused the method or URL
    | TransportFailed(err: Error)   // the HTTP client's Do failed
    | ReadFailed(err: Error)        // reading the response body failed
    | Responded(status: int, body: Bytes, closeErr: Option<Error>)

  datatype Environment = Environment(
    nowNanos: int64,                          // time.Now().UnixNano()
    validateErr: Option<Error>,               // what request.validate returns
    encode: Params -> string,                 // url.Values.Encode
    mac: (string, string) -> Bytes,           // HMAC-SHA256 keyed by the first argument
    transport: HttpRequest -> Exchange,       // sending, reading and closing
    parseApiError: Bytes -> APIError,         // json.Unmarshal into an APIError, malformed bodies included
    decode: (string, Bytes) -> Option<Error>) // json.Unmarshal into the named response type

  /** What `parseRequest` computes and writes back into the request. */
  datatype Prepared = Prepared(
    settings: Settings,   // receive window and header after the options
    query: Params,        // query parameters after recvWindow and timestamp are added
    queryString: string,  // the final query string, signature included
    body: string,         // the encoded form
    header: Header,
    fullURL: string)

  /** What `callAPI` returns: `None` data is Go's nil slice. */
  datatype Reply = Reply(data: Option<Bytes>, err: Option<Error>)

  /** A response structure filled in by decoding `from`. */
  datatype Decoded = Decoded(typeName: string, from: Bytes)

  /** What a service's `Do` returns: `None` is a nil (or empty) result. */
  datatype Outcome = Outcome(res: Option<Decoded>, err: Option<Error>)

  /** The query after `recvWindow` and `timestamp` are set in it. */
  function InjectParams(query: Params, recvWindow: int64, secType: SecType, timestamp: int64): (q: Params)
    ensures forall k :: k in q <==>
      k in query || (k == RecvWindowKey && recvWindow > 0) || (k == TimestampKey && secType == SecTypeSigned)
    ensures recvWindow > 0 ==> q[RecvWindowKey] == Int(recvWindow as int)
    ensures secType == SecTypeSigned ==> q[TimestampKey] == Int(timestamp as int)
    ensures forall k :: k in query && k != RecvWindowKey && k != TimestampKey ==> q[k] == query[k]
  {
    var q := if recvWindow > 0 then query[RecvWindowKey := Int(recvWindow as int)] else query;
    if secType == SecTypeSigned then q[TimestampKey := Int(timestamp as int)] else q
  }

  /** `url.Values{signature: hex}.Encode()`: the key and the hexadecimal
      digits need no escaping. */
  function SignatureComponent(sig: Bytes): string {
    SignatureKey + "=" + HexEncode(sig)
  }

  /** The query string with the signature of query and body appended as its
      last component, for signed requests; unsigned ones are left as they are. */
  function SignQuery(queryString: string, bodyString: string, secType: SecType,
                     secretKey: string, mac: (string, string) -> Bytes): string
  {
    if secType != SecTypeSigned then queryString
    else
      var v := SignatureComponent(mac(secretKey, queryString + bodyString));
      if queryString == "" then v else queryString + "&" + v
  }

  /** The URL followed by `?` and the query string, when there is one. */
  function WithQuery(url: string, queryString: string): string {
    if queryString == "" then url else url + "?" + queryString
  }

  /** The header the request is sent with: a copy of the request's header,
      with the form content type and the API key added when they apply. */
  function RequestHeader(h: Header, bodyString: string, secType: SecType, apiKey: string): Header {
    var h' := if bodyString != "" then h[ContentTypeHeader := [FormContentType]] else h;
    if secType == SecTypeAPIKey || secType == SecTypeSigned then h'[APIKeyHeader := [apiKey]] else h'
  }

  /** The result of one exchange, as `callAPI` reports it after `parseRequest`
      succeeded. */
  function Classify(x: Exchange, parseApiError: Bytes -> APIError): (reply: Reply)
    // a failure before a response: empty data and that same error
    ensures !x.Responded? ==> reply == Reply(Some([]), Some(x.err))
    // status 400 and above: nil data and an API error, however the body decodes
    ensures x.Responded? && x.status >= 400 ==>
      reply.data.None? && reply.err == Some(Api(parseApiError(x.body)))
    // otherwise the raw body; a close error is reported only here, where nothing failed before it
    ensures x.Responded? && x.status < 400 ==> reply.data == Some(x.body) && reply.err == x.closeErr
    ensures reply.err.None? <==> x.Responded? && x.status < 400 && x.closeErr.None?
  {
    match x
    case RequestRejected(e) => Reply(Some([]), Some(e))
    case TransportFailed(e) => Reply(Some([]), Some(e))
    case ReadFailed(e) => Reply(Some([]), Some(e))
    case Responded(status, body, closeErr) =>
      if status >= 400 then Reply(None, Some(Api(parseApiError(body))))
      else Reply(Some(body), closeErr)
  }

  /** A service's `Do` after `callAPI`: an error is passed up with a nil
      result; otherwise the body is decoded into the response type. */
  function Finish(typeName: string, reply: Reply, decode: (string, Bytes) -> Option<Error>): (o: Outcome)
    ensures o.res.Some? <==> o.err.None?
    ensures reply.err.Some? ==> o.err == reply.err
    ensures reply.err.None? ==> o.err == decode(typeName, reply.data.GetOr([]))
    ensures o.res.Some? ==> o.res.value == Decoded(typeName, reply.data.GetOr([]))
  {
    if reply.err.Some? then Outcome(None, reply.err)
    else
      var data := reply.data.GetOr([]);
      match decode(typeName, data)
      case Some(e) => Outcome(None, Some(e))
      case None => Outcome(Some(Decoded(typeName, data)), None)
  }

  /** The options loop at the start of `parseRequest`: each option applied
      to the request in turn. */
  method ApplyAll(r: Request, opts: seq<RequestOption>)
    modifies r`recvWindow, r`header
    ensures Settings(r.recvWindow, r.header) == ApplyOptions(old(Settings(r.recvWindow, r.header)), opts)
  {
    ghost var start := Settings(r.recvWindow, r.header);
    var i := 0;
    while i < |opts|
      invariant 0 <= i <= |opts|
      invariant Settings(r.recvWindow, r.header) == ApplyOptions(start, opts[..i])
    {
      r.Apply(opts[i]);
      assert opts[..i + 1][..i] == opts[..i];
      i := i + 1;
    }
    assert opts[..i] == opts;
  }

  datatype Client = Client(
    apiKey: string,
    secretKey: string,
    baseURL: string,
    userAgent: string,
    debug: bool,
    timeOffset: int64)
  {
    /** `currentTimestamp() - c.TimeOffset`. */
    function Timestamp(nowNanos: int64): (t: int64)
      ensures (t as int - (FormatTimestamp(nowNanos) as int - timeOffset as int)) % TwoTo64 == 0
    {
      Sub64(FormatTimestamp(nowNanos), timeOffset)
    }

    /** What `parseRequest` makes of a request when validation passes. */
    function Prepare(d: Draft, opts: seq<RequestOption>, env: Environment): Prepared {
      var s := ApplyOptions(Settings(d.recvWindow, d.header), opts);
      var query := InjectParams(d.query, s.recvWindow, d.secType, Timestamp(env.nowNanos));
      var queryString := env.encode(query);
      var bodyString := env.encode(d.form);
      var final := SignQuery(queryString, bodyString, d.secType, secretKey, env.mac);
      Prepared(s, query, final, bodyString,
               RequestHeader(s.header, bodyString, d.secType, apiKey),
               WithQuery(baseURL + d.endpoint, final))
    }

    /** What `callAPI` returns for a request. */
    function Call(d: Draft, opts: seq<RequestOption>, env: Environment): (reply: Reply)
      ensures env.validateErr.Some? ==> reply == Reply(Some([]), env.validateErr)
      ensures reply.err.None? ==> env.validateErr.None? && reply.data.Some?
    {
      if env.validateErr.Some? then Reply(Some([]), env.validateErr)
      else
        var p := Prepare(d, opts, env);
        Classify(env.transport(HttpRequest(d.httpMethod, p.fullURL, p.header, p.body)), env.parseApiError)
    }

    /** `parseRequest`: applies the options, validates, adds `recvWindow` and
        `timestamp`, encodes, signs, and writes the header, body and full URL
        back into the request. A validation error leaves the query, body and
        full URL alone; the header is then what the options made it. */
    method ParseRequest(r: Request, opts: seq<RequestOption>, env: Environment) returns (err: Option<Error>)
      modifies r
      ensures err == env.validateErr
      ensures r.httpMethod == old(r.httpMethod) && r.endpoint == old(r.endpoint)
      ensures r.secType == old(r.secType) && r.form == old(r.form)
      ensures err.Some? ==>
        var s := ApplyOptions(old(Settings(r.recvWindow, r.header)), opts);
        && r.recvWindow == s.recvWindow && r.header == s.header && r.query == old(r.query)
        && r.fullURL == old(r.fullURL) && r.body == old(r.body)
      ensures err.None? ==>
        var p := Prepare(old(r.Snapshot()), opts, env);
        && r.recvWindow == p.settings.recvWindow && r.query == p.query
        && r.header == p.header && r.body == p.body && r.fullURL == p.fullURL
    {
      ApplyAll(r, opts);
      err := env.validateErr;
      if err.Some? {
        return;
      }
      Assemble(r, env);
    }

    /** The part of `parseRequest` after validation: sets `recvWindow` and
        `timestamp`, encodes query and form, builds the header, signs, and
        writes full URL, header and body back. */
    method Assemble(r: Request, env: Environment)
      modifies r`query, r`fullURL, r`header, r`body
      ensures var bodyString := env.encode(r.form);
        var query := InjectParams(old(r.query), r.recvWindow, r.secType, Timestamp(env.nowNanos));
        && r.query == query
        && r.header == RequestHeader(old(r.header), bodyString, r.secType, apiKey)
        && r.body == bodyString
        && r.fullURL == WithQuery(baseURL + r.endpoint,
             SignQuery(env.encode(query), bodyString, r.secType, secretKey, env.mac))
    {
      ghost var query := InjectParams(r.query, r.recvWindow, r.secType, Timestamp(env.nowNanos));
      ghost var header0 := r.header;
      var fullURL := baseURL + r.endpoint;
      if r.recvWindow > 0 {
        r.SetParam(RecvWindowKey, Int(r.recvWindow as int));
      }
      if r.secType == SecTypeSigned {
        r.SetParam(TimestampKey, Int(Timestamp(env.nowNanos) as int));
      }
      assert r.query == query;
      var queryString := env.encode(r.query);
      var bodyString := env.encode(r.form);
      var header := r.header;
      var body := "";
      if bodyString != "" {
        header := header[ContentTypeHeader := [FormContentType]];
        body := bodyString;
      }
      if r.secType == SecTypeAPIKey || r.secType == SecTypeSigned {
        header := header[APIKeyHeader := [apiKey]];
      }
      assert header == RequestHeader(header0, bodyString, r.secType, apiKey);
      if r.secType == SecTypeSigned {
        var raw := queryString + bodyString;
        var v := SignatureComponent(env.mac(secretKey, raw));
        if queryString == "" {
          queryString := v;
        } else {
          queryString := queryString + "&" + v;
        }
      }
      assert queryString == SignQuery(env.encode(query), bodyString, r.secType, secretKey, env.mac);
      if queryString != "" {
        fullURL := fullURL + "?" + queryString;
      }
      r.fullURL := fullURL;
      r.header := header;
      r.body := body;
    }

    /** `callAPI`: parses the request, sends it, and sorts the result. The
        deferred close replaces the error only when there was none. */
    method CallAPI(r: Request, opts: seq<RequestOption>, env: Environment) returns (data: Option<Bytes>, err: Option<Error>)
      modifies r
      ensures Reply(data, err) == Call(old(r.Snapshot()), opts, env)
      // what `parseRequest` left in the request
      ensures r.httpMethod == old(r.httpMethod) && r.endpoint == old(r.endpoint)
      ensures r.secType == old(r.secType) && r.form == old(r.form)
      ensures env.validateErr.Some? ==>
        var s := ApplyOptions(old(Settings(r.recvWindow, r.header)), opts);
        && r.recvWindow == s.recvWindow && r.header == s.header && r.query == old(r.query)
        && r.fullURL == old(r.fullURL) && r.body == old(r.body)
      ensures env.validateErr.None? ==>
        var p := Prepare(old(r.Snapshot()), opts, env);
        && r.recvWindow == p.settings.recvWindow && r.query == p.query
        && r.header == p.header && r.body == p.body && r.fullURL == p.fullURL
    {
      ghost var d := r.Snapshot();
      err := ParseRequest(r, opts, env);
      if err.Some? {
        return Some([]), err;
      }
      var exchange := env.transport(HttpRequest(r.httpMethod, r.fullURL, r.header, r.body));
      match exchange {
        case RequestRejected(e) =>
          return Some([]), Some(e);
        case TransportFailed(e) =>
          return Some([]), Some(e);
        case ReadFailed(e) =>
          return Some([]), Some(e);
        case Responded(status, body, closeErr) =>
          if status >= 400 {
            data, err := None, Some(Api(env.parseApiError(body)));
          } else {
            data, err := Some(body), None;
          }
          if err.None? && closeErr.Some? {
            err := closeErr;
          }
      }
    }
  }

  /** `NewClient`: the main endpoint, no clock offset, debugging off. */
  function NewClient(apiKey: string, secretKey: string): (c: Client)
    ensures c.apiKey == apiKey && c.secretKey == secretKey
    ensures c.baseURL == BaseAPIMainURL && c.userAgent == UserAgent
    ensures c.timeOffset == 0 && !c.debug
  {
    Client(apiKey, secretKey, BaseAPIMainURL, UserAgent, false, 0)
  }
}
