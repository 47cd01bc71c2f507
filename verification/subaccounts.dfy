/** The sub-account listing endpoint: a signed GET whose optional filters are
    all handed to the request as pointers. */
module SubAccounts {
  import opened Common
  import opened Requests
  import opened RestClient

  const SubAccountListEndpoint: string := "/sapi/v1/sub-account/list"
  const SubAccountListResponseType: string := "*GetSubAccountListResponse"

  class GetSubAccountListService {
    var c: Client
    var email: Option<string>
    var isFreeze: Option<string>
    var page: Option<int>
    var limit: Option<int>

    /** A service with no filter set. */
    constructor (c: Client)
      ensures this.c == c && email.None? && isFreeze.None? && page.None? && limit.None?
    {
      this.c := c;
      email, isFreeze, page, limit := None, None, None, None;
    }

    method Email(email: string) returns (s: GetSubAccountListService)
      modifies this`email
      ensures this.email == Some(email) && s == this
    {
      this.email := Some(email);
      s := this;
    }

    method IsFreeze(isFreeze: string) returns (s: GetSubAccountListService)
      modifies this`isFreeze
      ensures this.isFreeze == Some(isFreeze) && s == this
    {
      this.isFreeze := Some(isFreeze);
      s := this;
    }

    method Page(page: int) returns (s: GetSubAccountListService)
      modifies this`page
      ensures this.page == Some(page) && s == this
    {
      this.page := Some(page);
      s := this;
    }

    method Limit(limit: int) returns (s: GetSubAccountListService)
      modifies this`limit
      ensures this.limit == Some(limit) && s == this
    {
      this.limit := Some(limit);
      s := this;
    }

    /** A signed GET whose query holds each filter, as a pointer, exactly
        when it was set, and nothing else: an unfiltered listing sends an
        empty query apart from what the client adds. */
    function Outgoing(): (d: Draft)
      reads this
      ensures d.httpMethod == "GET" && d.endpoint == SubAccountListEndpoint && d.secType == SecTypeSigned
      ensures ("email" in d.query <==> email.Some?)
      ensures email.Some? ==> d.query["email"] == Ref(Str(email.value))
      ensures ("isFreeze" in d.query <==> isFreeze.Some?)
      ensures isFreeze.Some? ==> d.query["isFreeze"] == Ref(Str(isFreeze.value))
      ensures ("page" in d.query <==> page.Some?)
      ensures page.Some? ==> d.query["page"] == Ref(Int(page.value))
      ensures ("limit" in d.query <==> limit.Some?)
      ensures limit.Some? ==> d.query["limit"] == Ref(Int(limit.value))
      ensures d.query.Keys <= {"email", "isFreeze", "page", "limit"}
      ensures d.form == map[] && d.recvWindow == 0 && d.header == map[]
    {
      var q := map[];
      var q := if email.Some? then q["email" := Ref(Str(email.value))] else q;
      var q := if isFreeze.Some? then q["isFreeze" := Ref(Str(isFreeze.value))] else q;
      var q := if page.Some? then q["page" := Ref(Int(page.value))] else q;
      var q := if limit.Some? then q["limit" := Ref(Int(limit.value))] else q;
      Draft("GET", SubAccountListEndpoint, SecTypeSigned, 0, q, map[], map[])
    }

    method Do(env: Environment) returns (res: Option<Decoded>, err: Option<Error>)
      ensures Outcome(res, err) ==
        Finish(SubAccountListResponseType, c.Call(Outgoing(), [], env), env.decode)
    {
      var r := new Request("GET", SubAccountListEndpoint, SecTypeSigned);
      if email.Some? {
        r.SetParam("email", Ref(Str(email.value)));
      }
      if isFreeze.Some? {
        r.SetParam("isFreeze", Ref(Str(isFreeze.value)));
      }
      if page.Some? {
        r.SetParam("page", Ref(Int(page.value)));
      }
      if limit.Some? {
        r.SetParam("limit", Ref(Int(limit.value)));
      }
      assert r.Snapshot() == Outgoing();
      var data;
      data, err := c.CallAPI(r, [], env);
      if err.Some? {
        return None, err;
      }
      err := env.decode(SubAccountListResponseType, data.GetOr([]));
      if err.Some? {
        return None, err;
      }
      res := Some(Decoded(SubAccountListResponseType, data.GetOr([])));
    }
  }
}
