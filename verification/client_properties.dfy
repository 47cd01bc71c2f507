/** What `parseRequest` guarantees about the request it prepares, stated over
    `Client.Prepare` for every encoder, MAC and clock. */
module ClientProperties {
  import opened Common
  import opened Hex
  import opened Requests
  import opened RestClient

  /** `recvWindow` is added exactly when the (option-adjusted) receive window
      is positive, `timestamp` exactly when the request is signed, and every
      other parameter the caller set is kept as it was. */
  lemma InjectedParameters(c: Client, d: Draft, opts: seq<RequestOption>, env: Environment)
    ensures var p := c.Prepare(d, opts, env);
      var w := p.settings.recvWindow;
      var signed := d.secType == SecTypeSigned;
      && w == ApplyOptions(Settings(d.recvWindow, d.header), opts).recvWindow
      && (forall k :: k in p.query <==>
            k in d.query || (k == RecvWindowKey && w > 0) || (k == TimestampKey && signed))
      && (w > 0 ==> p.query[RecvWindowKey] == Int(w as int))
      && (signed ==> p.query[TimestampKey] == Int(c.Timestamp(env.nowNanos) as int))
      && (forall k :: k in d.query && !(k == RecvWindowKey && w > 0) && !(k == TimestampKey && signed) ==>
            p.query[k] == d.query[k])
  {
  }

  /** The timestamp is the clock in milliseconds minus the client's offset;
      when the subtraction stays in the int64 range it is exact. */
  lemma TimestampValue(c: Client, nowNanos: int64)
    requires var ms := FormatTimestamp(nowNanos) as int;
      -0x8000_0000_0000_0000 <= ms - c.timeOffset as int < 0x8000_0000_0000_0000
    ensures c.Timestamp(nowNanos) as int == FormatTimestamp(nowNanos) as int - c.timeOffset as int
  {
  }

  /** The API key header is set to the key exactly for API-key and signed
      requests; the form content type is set exactly when the encoded form is
      non-empty, and the body is that encoding; every other header, including
      an option-supplied API key or content type that the client does not
      set, comes from the options unchanged. */
  lemma HeaderAndBody(c: Client, d: Draft, opts: seq<RequestOption>, env: Environment)
    ensures var p := c.Prepare(d, opts, env);
      var keyed := d.secType == SecTypeAPIKey || d.secType == SecTypeSigned;
      && p.body == env.encode(d.form)
      && (keyed ==> APIKeyHeader in p.header && p.header[APIKeyHeader] == [c.apiKey])
      && (!keyed ==> (APIKeyHeader in p.header <==> APIKeyHeader in p.settings.header))
      && (p.body != "" ==> ContentTypeHeader in p.header && p.header[ContentTypeHeader] == [FormContentType])
      && (p.body == "" ==> (ContentTypeHeader in p.header <==> ContentTypeHeader in p.settings.header))
      && (forall k :: k != APIKeyHeader && k != ContentTypeHeader ==>
            (k in p.header <==> k in p.settings.header))
      && (forall k :: k in p.header && !(k == APIKeyHeader && keyed) && !(k == ContentTypeHeader && p.body != "") ==>
            k in p.settings.header && p.header[k] == p.settings.header[k])
  {
  }

  /** A signed request's query string ends with `signature=` and the
      lower-case hex HMAC of the encoded query (recvWindow and timestamp
      included) followed by the encoded form; `&` separates it from the query
      exactly when the query was non-empty. Other requests carry no signature. */
  lemma SignatureIsLastComponent(c: Client, d: Draft, opts: seq<RequestOption>, env: Environment)
    ensures var p := c.Prepare(d, opts, env);
      var qs := env.encode(p.query);
      && (d.secType == SecTypeSigned ==>
            p.queryString ==
              (if qs == "" then "" else qs + "&")
              + "signature=" + HexEncode(env.mac(c.secretKey, qs + p.body)))
      && (d.secType != SecTypeSigned ==> p.queryString == qs)
  {
  }

  /** The full URL is base URL and endpoint, followed by `?` and the query
      string exactly when that string is non-empty; a signed request always
      has one. */
  lemma FullURLShape(c: Client, d: Draft, opts: seq<RequestOption>, env: Environment)
    ensures var p := c.Prepare(d, opts, env);
      && p.fullURL == c.baseURL + d.endpoint + (if p.queryString == "" then "" else "?" + p.queryString)
      && (d.secType == SecTypeSigned ==> p.queryString != "")
  {
  }

  /** The MAC can be read back from the end of a signed request's URL. */
  lemma SignatureRecoverable(c: Client, d: Draft, opts: seq<RequestOption>, env: Environment)
    requires d.secType == SecTypeSigned
    ensures var p := c.Prepare(d, opts, env);
      var m := env.mac(c.secretKey, env.encode(p.query) + p.body);
      && 2 * |m| <= |p.fullURL|
      && HexDecode(p.fullURL[|p.fullURL| - 2 * |m|..]) == Some(m)
  {
    var p := c.Prepare(d, opts, env);
    var m := env.mac(c.secretKey, env.encode(p.query) + p.body);
    var h := HexEncode(m);
    var prefix := c.baseURL + d.endpoint + "?"
      + (if env.encode(p.query) == "" then "" else env.encode(p.query) + "&") + "signature=";
    assert p.fullURL == prefix + h;
    assert p.fullURL[|p.fullURL| - 2 * |m|..] == h;
    HexRoundTrip(m);
  }

  /** The API key reaches the request only through its header: clients that
      differ only in the key send the same URL and body. */
  lemma APIKeyOnlyInHeader(c: Client, key: string, d: Draft, opts: seq<RequestOption>, env: Environment)
    ensures var p := c.Prepare(d, opts, env);
      var p' := c.(apiKey := key).Prepare(d, opts, env);
      p'.query == p.query && p'.queryString == p.queryString && p'.body == p.body && p'.fullURL == p.fullURL
  {
  }

  /** The secret key is never sent: clients that differ only in the secret send
      the same header and body, and for unsigned requests the same URL. */
  lemma SecretKeyNeverSent(c: Client, secret: string, d: Draft, opts: seq<RequestOption>, env: Environment)
    ensures var p := c.Prepare(d, opts, env);
      var p' := c.(secretKey := secret).Prepare(d, opts, env);
      && p'.header == p.header && p'.body == p.body && p'.query == p.query
      && (d.secType != SecTypeSigned ==> p'.fullURL == p.fullURL)
  {
  }

  /** Two signed requests with the same URL carry the same MAC. */
  lemma SameURLSameSignature(c: Client, d: Draft, d': Draft, opts: seq<RequestOption>, env: Environment)
    requires d.secType == SecTypeSigned && d'.secType == SecTypeSigned
    requires var p := c.Prepare(d, opts, env);
      var p' := c.Prepare(d', opts, env);
      && p.fullURL == p'.fullURL
      && |env.mac(c.secretKey, env.encode(p.query) + p.body)| == |env.mac(c.secretKey, env.encode(p'.query) + p'.body)|
    ensures var p := c.Prepare(d, opts, env);
      var p' := c.Prepare(d', opts, env);
      env.mac(c.secretKey, env.encode(p.query) + p.body) == env.mac(c.secretKey, env.encode(p'.query) + p'.body)
  {
    SignatureRecoverable(c, d, opts, env);
    SignatureRecoverable(c, d', opts, env);
  }

  /** What every service's `Do` returns: a decoded result exactly when
      validation passed, the exchange answered with a status below 400, closing
      the body did not fail and the body decodes; otherwise no result and the
      first error met, in that order, the decoding error last. */
  lemma ServiceOutcome(c: Client, typeName: string, d: Draft, opts: seq<RequestOption>, env: Environment)
    ensures var o := Finish(typeName, c.Call(d, opts, env), env.decode);
      var p := c.Prepare(d, opts, env);
      var x := env.transport(HttpRequest(d.httpMethod, p.fullURL, p.header, p.body));
      && (env.validateErr.Some? ==> o == Outcome(None, env.validateErr))
      && (env.validateErr.None? && !x.Responded? ==> o == Outcome(None, Some(x.err)))
      && (env.validateErr.None? && x.Responded? && x.status >= 400 ==>
            o == Outcome(None, Some(Api(env.parseApiError(x.body)))))
      && (env.validateErr.None? && x.Responded? && x.status < 400 && x.closeErr.Some? ==>
            o == Outcome(None, x.closeErr))
      && (env.validateErr.None? && x.Responded? && x.status < 400 && x.closeErr.None? ==>
            o.err == env.decode(typeName, x.body))
      && (o.res.Some? <==>
            env.validateErr.None? && x.Responded? && x.status < 400 && x.closeErr.None?
            && env.decode(typeName, x.body).None?)
      && (o.res.Some? ==> o.res.value == Decoded(typeName, x.body))
  {
  }
}
