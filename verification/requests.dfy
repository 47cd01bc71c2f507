/** The request record every endpoint service fills in and hands to the
    client: method, endpoint, security type, receive window, query and form
    parameters, and the fields the client writes back (header, body, full URL).
    Its helpers (`setParam`, `setFormParams`, the request options) live in a
    file of the package that is not part of this model; they are modelled here
    as updates of a string-keyed map. */
module Requests {
  import opened Common

  /** How an endpoint authenticates: not at all, with the API key header, or
      with the API key header and an HMAC signature. */
  datatype SecType = SecTypeNone | SecTypeAPIKey | SecTypeSigned

  /** The options a caller may pass to `Do`. */
  datatype RequestOption =
    | WithRecvWindow(recvWindow: int64)
    | WithHeader(key: string, value: string, replace: bool)
    | WithHeaders(header: Header)

  /** The part of a request that options change. */
  datatype Settings = Settings(recvWindow: int64, header: Header)

  function ApplyOption(opt: RequestOption, s: Settings): (s': Settings)
    ensures opt.WithRecvWindow? ==> s'.header == s.header && s'.recvWindow == opt.recvWindow
    ensures !opt.WithRecvWindow? ==> s'.recvWindow == s.recvWindow
  {
    match opt
    case WithRecvWindow(w) => s.(recvWindow := w)
    case WithHeader(k, v, replace) =>
      var prior := if k in s.header then s.header[k] else [];
      s.(header := s.header[k := if replace then [v] else prior + [v]])
    case WithHeaders(h) => s.(header := h)
  }

  /** The options applied in order, first to last. */
  function ApplyOptions(s: Settings, opts: seq<RequestOption>): Settings {
    if opts == [] then s
    else ApplyOption(opts[|opts| - 1], ApplyOptions(s, opts[..|opts| - 1]))
  }

  /** The receive window after the options is the one the request had unless
      some option set it, and then the value one of the options gave. */
  lemma {:induction false} OptionsWindow(s: Settings, opts: seq<RequestOption>)
    ensures (forall i :: 0 <= i < |opts| ==> !opts[i].WithRecvWindow?) ==>
      ApplyOptions(s, opts).recvWindow == s.recvWindow
    ensures ApplyOptions(s, opts).recvWindow == s.recvWindow ||
      exists i :: 0 <= i < |opts| && opts[i] == WithRecvWindow(ApplyOptions(s, opts).recvWindow)
  {
    if opts != [] {
      var init := opts[..|opts| - 1];
      OptionsWindow(s, init);
      var w := ApplyOptions(s, opts).recvWindow;
      if w != s.recvWindow && !opts[|opts| - 1].WithRecvWindow? {
        var i :| 0 <= i < |init| && init[i] == WithRecvWindow(w);
        assert opts[i] == init[i];
      }
      if (forall i :: 0 <= i < |opts| ==> !opts[i].WithRecvWindow?) {
        assert forall i :: 0 <= i < |init| ==> init[i] == opts[i];
      }
    }
  }

  /** The last `WithRecvWindow` option decides the receive window: the options
      are applied in order, so an earlier one is overridden. */
  lemma {:induction false} LastWindowOptionWins(s: Settings, opts: seq<RequestOption>, i: int)
    requires 0 <= i < |opts| && opts[i].WithRecvWindow?
    requires forall j :: i < j < |opts| ==> !opts[j].WithRecvWindow?
    ensures ApplyOptions(s, opts).recvWindow == opts[i].recvWindow
  {
    if i < |opts| - 1 {
      LastWindowOptionWins(s, opts[..|opts| - 1], i);
    }
  }

  /** The entry an optional field contributes: its key when it is set,
      nothing when it is not. */
  function OptionalParam(key: string, v: Option<Value>): (m: Params)
    ensures key in m <==> v.Some?
    ensures v.Some? ==> m[key] == v.value
    ensures m.Keys <= {key}
  {
    if v.Some? then map[key := v.value] else map[]
  }

  /** A request as the client reads it, before it writes anything back. */
  datatype Draft = Draft(
    httpMethod: string,
    endpoint: string,
    secType: SecType,
    recvWindow: int64,
    query: Params,
    form: Params,
    header: Header)

  class Request {
    var httpMethod: string
    var endpoint: string
    var secType: SecType
    var recvWindow: int64
    var query: Params
    var form: Params
    var header: Header
    var fullURL: string
    var body: string

    /** `&request{method: ..., endpoint: ..., secType: ...}`: every other field zero. */
    constructor (httpMethod: string, endpoint: string, secType: SecType)
      ensures Snapshot() == Draft(httpMethod, endpoint, secType, 0, map[], map[], map[])
      ensures fullURL == "" && body == ""
    {
      this.httpMethod := httpMethod;
      this.endpoint := endpoint;
      this.secType := secType;
      recvWindow := 0;
      query := map[];
      form := map[];
      header := map[];
      fullURL := "";
      body := "";
    }

    function Snapshot(): Draft
      reads this
    {
      Draft(httpMethod, endpoint, secType, recvWindow, query, form, header)
    }

    /** `setParam`: sets one query parameter, replacing an earlier value. */
    method SetParam(key: string, value: Value)
      modifies this`query
      ensures query == old(query)[key := value]
    {
      query := query[key := value];
    }

    /** `setFormParam`: sets one form parameter, replacing an earlier value. */
    method SetFormParam(key: string, value: Value)
      modifies this`form
      ensures form == old(form)[key := value]
    {
      form := form[key := value];
    }

    /** `setFormParams`: sets every entry of `m` as a form parameter, in no
        particular order. */
    method SetFormParams(m: Params)
      modifies this`form
      ensures form == old(form) + m
    {
      var pending := m.Keys;
      while pending != {}
        invariant pending <= m.Keys
        invariant form.Keys == old(form).Keys + (m.Keys - pending)
        invariant forall k :: k in form ==>
          form[k] == if k in m && k !in pending then m[k] else old(form)[k]
        decreases pending
      {
        var k :| k in pending;
        SetFormParam(k, m[k]);
        pending := pending - {k};
      }
      assert form.Keys == (old(form) + m).Keys;
    }

    /** `opt(r)`: one request option applied to this request. */
    method Apply(opt: RequestOption)
      modifies this`recvWindow, this`header
      ensures Settings(recvWindow, header) == ApplyOption(opt, old(Settings(recvWindow, header)))
    {
      match opt
      case WithRecvWindow(w) =>
        recvWindow := w;
      case WithHeader(k, v, replace) =>
        if replace {
          header := header[k := [v]];
        } else {
          var prior := if k in header then header[k] else [];
          header := header[k := prior + [v]];
        }
      case WithHeaders(h) =>
        header := h;
    }
  }
}
