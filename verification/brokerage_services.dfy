/** The broker endpoints: create a sub-account, and create an API key for a
    sub-account. Both are signed POSTs whose `Do` takes no request options. */
module BrokerageServices {
  import opened Common
  import opened Requests
  import opened RestClient

  const SubAccountEndpoint: string := "/sapi/v1/broker/subAccount"
  const SubAccountApiEndpoint: string := "/sapi/v1/broker/subAccountApi"

  const CreateSubAccountResponseType: string := "CreateSubAccountResponse"
  const CreateApiKeyForSubAccountResponseType: string := "CreateApiKeyForSubAccountResponse"

  class CreateSubAccountService {
    var c: Client
    var tag: Option<string>

    /** `NewCreateSubAccountService`: no tag yet. */
    constructor (c: Client)
      ensures this.c == c && tag.None?
    {
      this.c := c;
      tag := None;
    }

    method Tag(tag: string) returns (s: CreateSubAccountService)
      modifies this`tag
      ensures this.tag == Some(tag) && s == this
    {
      this.tag := Some(tag);
      s := this;
    }

    /** A signed POST whose query holds `tag` exactly when a tag was set. */
    function Outgoing(): (d: Draft)
      reads this
      ensures d.httpMethod == "POST" && d.endpoint == SubAccountEndpoint && d.secType == SecTypeSigned
      ensures ("tag" in d.query <==> tag.Some?)
      ensures tag.Some? ==> d.query["tag"] == Str(tag.value)
      ensures d.query.Keys <= {"tag"}
      ensures d.form == map[] && d.recvWindow == 0 && d.header == map[]
    {
      Draft("POST", SubAccountEndpoint, SecTypeSigned, 0,
            OptionalParam("tag", tag.Map(t => Str(t))), map[], map[])
    }

    method Do(env: Environment) returns (res: Option<Decoded>, err: Option<Error>)
      ensures Outcome(res, err) ==
        Finish(CreateSubAccountResponseType, c.Call(Outgoing(), [], env), env.decode)
    {
      var r := new Request("POST", SubAccountEndpoint, SecTypeSigned);
      if tag.Some? {
        r.SetParam("tag", Str(tag.value));
      }
      assert r.Snapshot() == Outgoing();
      var data;
      data, err := c.CallAPI(r, [], env);
      if err.Some? {
        return None, err;
      }
      err := env.decode(CreateSubAccountResponseType, data.GetOr([]));
      if err.Some? {
        return None, err;
      }
      res := Some(Decoded(CreateSubAccountResponseType, data.GetOr([])));
    }
  }

  class CreateApiKeyForSubAccountService {
    var c: Client
    var subAccountID: string
    var canTrade: bool
    var marginTrade: Option<bool>
    var futuresTrade: Option<bool>

    /** `NewCreateApiKeyForSubAccountService`: every field at its zero value. */
    constructor (c: Client)
      ensures this.c == c && subAccountID == "" && !canTrade
      ensures marginTrade.None? && futuresTrade.None?
    {
      this.c := c;
      subAccountID, canTrade := "", false;
      marginTrade, futuresTrade := None, None;
    }

    method SubAccountID(subAccountID: string) returns (s: CreateApiKeyForSubAccountService)
      modifies this`subAccountID
      ensures this.subAccountID == subAccountID && s == this
    {
      this.subAccountID := subAccountID;
      s := this;
    }

    method CanTrade(canTrade: bool) returns (s: CreateApiKeyForSubAccountService)
      modifies this`canTrade
      ensures this.canTrade == canTrade && s == this
    {
      this.canTrade := canTrade;
      s := this;
    }

    method MarginTrade(marginTrade: bool) returns (s: CreateApiKeyForSubAccountService)
      modifies this`marginTrade
      ensures this.marginTrade == Some(marginTrade) && s == this
    {
      this.marginTrade := Some(marginTrade);
      s := this;
    }

    method FuturesTrade(futuresTrade: bool) returns (s: CreateApiKeyForSubAccountService)
      modifies this`futuresTrade
      ensures this.futuresTrade == Some(futuresTrade) && s == this
    {
      this.futuresTrade := Some(futuresTrade);
      s := this;
    }

    /** A signed POST that always carries the sub-account id and the trade
        flag, the zero values included; the margin flag as a value and the
        futures flag as a pointer, each exactly when set; nothing else. */
    function Outgoing(): (d: Draft)
      reads this
      ensures d.httpMethod == "POST" && d.endpoint == SubAccountApiEndpoint && d.secType == SecTypeSigned
      ensures "subAccountId" in d.query && d.query["subAccountId"] == Str(subAccountID)
      ensures "canTrade" in d.query && d.query["canTrade"] == Bool(canTrade)
      ensures ("marginTrade" in d.query <==> marginTrade.Some?)
      ensures marginTrade.Some? ==> d.query["marginTrade"] == Bool(marginTrade.value)
      ensures ("futuresTrade" in d.query <==> futuresTrade.Some?)
      ensures futuresTrade.Some? ==> d.query["futuresTrade"] == Ref(Bool(futuresTrade.value))
      ensures d.query.Keys <= {"subAccountId", "canTrade", "marginTrade", "futuresTrade"}
      ensures d.form == map[] && d.recvWindow == 0 && d.header == map[]
    {
      var q := map["subAccountId" := Str(subAccountID), "canTrade" := Bool(canTrade)];
      var q := if marginTrade.Some? then q["marginTrade" := Bool(marginTrade.value)] else q;
      var q := if futuresTrade.Some? then q["futuresTrade" := Ref(Bool(futuresTrade.value))] else q;
      Draft("POST", SubAccountApiEndpoint, SecTypeSigned, 0, q, map[], map[])
    }

    method Do(env: Environment) returns (res: Option<Decoded>, err: Option<Error>)
      ensures Outcome(res, err) ==
        Finish(CreateApiKeyForSubAccountResponseType, c.Call(Outgoing(), [], env), env.decode)
    {
      var r := new Request("POST", SubAccountApiEndpoint, SecTypeSigned);
      r.SetParam("subAccountId", Str(subAccountID));
      r.SetParam("canTrade", Bool(canTrade));
      if marginTrade.Some? {
        r.SetParam("marginTrade", Bool(marginTrade.value));
      }
      if futuresTrade.Some? {
        r.SetParam("futuresTrade", Ref(Bool(futuresTrade.value)));
      }
      assert r.Snapshot() == Outgoing();
      var data;
      data, err := c.CallAPI(r, [], env);
      if err.Some? {
        return None, err;
      }
      err := env.decode(CreateApiKeyForSubAccountResponseType, data.GetOr([]));
      if err.Some? {
        return None, err;
      }
      res := Some(Decoded(CreateApiKeyForSubAccountResponseType, data.GetOr([])));
    }
  }
}
