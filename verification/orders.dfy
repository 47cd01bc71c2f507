/** The order endpoints: create, get, cancel and list orders. Each service is a
    builder whose setters store one field and return the service itself, and
    whose `Do` turns the fields into request parameters and calls the client.
    Go's `int` (SideType, OrderType, ListOrdersType, limits) is modelled as an
    unbounded integer: the values are only passed through. */
module Orders {
  import opened Common
  import opened Requests
  import opened RestClient
  import opened OrderParams

  const OrdersEndpoint: string := "/open/v1/orders"
  const OrderDetailEndpoint: string := "/open/v1/orders/detail"
  const CancelOrderEndpoint: string := "/open/v1/orders/cancel"

  const CreateOrderResponseType: string := "CreateOrderResponse"
  const GetOrderDetailResponseType: string := "GetOrderDetailResponse"
  const CancelOrderResponseType: string := "CancelOrderResponse"
  const ListOrdersResponseType: string := "[]*ListOrdersResponse"

  class CreateOrderService {
    var c: Client
    var symbol: string
    var side: int
    var orderType: int
    var quantity: Option<string>
    var quoteOrderQty: Option<string>
    var price: Option<string>
    var clientId: Option<string>
    var stopPrice: Option<string>
    var icebergQuantity: Option<string>

    constructor (c: Client)
      ensures this.c == c && symbol == "" && side == 0 && orderType == 0
      ensures quantity.None? && quoteOrderQty.None? && price.None?
      ensures clientId.None? && stopPrice.None? && icebergQuantity.None?
    {
      this.c := c;
      symbol, side, orderType := "", 0, 0;
      quantity, quoteOrderQty, price := None, None, None;
      clientId, stopPrice, icebergQuantity := None, None, None;
    }

    method Symbol(symbol: string) returns (s: CreateOrderService)
      modifies this`symbol
      ensures this.symbol == symbol && s == this
    {
      this.symbol := symbol;
      s := this;
    }

    method Side(side: int) returns (s: CreateOrderService)
      modifies this`side
      ensures this.side == side && s == this
    {
      this.side := side;
      s := this;
    }

    method Type(orderType: int) returns (s: CreateOrderService)
      modifies this`orderType
      ensures this.orderType == orderType && s == this
    {
      this.orderType := orderType;
      s := this;
    }

    method Quantity(quantity: string) returns (s: CreateOrderService)
      modifies this`quantity
      ensures this.quantity == Some(quantity) && s == this
    {
      this.quantity := Some(quantity);
      s := this;
    }

    /** As written: stores the quote quantity in the client id field. */
    method QuoteOrderQty(quoteOrderQty: string) returns (s: CreateOrderService)
      modifies this`clientId
      ensures clientId == Some(quoteOrderQty) && s == this
    {
      clientId := Some(quoteOrderQty);
      s := this;
    }

    /** The setter as its name intends: stores the quote quantity. */
    method CorrectedQuoteOrderQty(quoteOrderQty: string) returns (s: CreateOrderService)
      modifies this`quoteOrderQty
      ensures this.quoteOrderQty == Some(quoteOrderQty) && s == this
    {
      this.quoteOrderQty := Some(quoteOrderQty);
      s := this;
    }

    method Price(price: string) returns (s: CreateOrderService)
      modifies this`price
      ensures this.price == Some(price) && s == this
    {
      this.price := Some(price);
      s := this;
    }

    method ClientId(clientId: string) returns (s: CreateOrderService)
      modifies this`clientId
      ensures this.clientId == Some(clientId) && s == this
    {
      this.clientId := Some(clientId);
      s := this;
    }

    method StopPrice(stopPrice: string) returns (s: CreateOrderService)
      modifies this`stopPrice
      ensures this.stopPrice == Some(stopPrice) && s == this
    {
      this.stopPrice := Some(stopPrice);
      s := this;
    }

    method IcebergQuantity(icebergQuantity: string) returns (s: CreateOrderService)
      modifies this`icebergQuantity
      ensures this.icebergQuantity == Some(icebergQuantity) && s == this
    {
      this.icebergQuantity := Some(icebergQuantity);
      s := this;
    }

    /** The builder's fields as one value. */
    function Fields(): CreateOrderFields
      reads this
    {
      CreateOrderFields(symbol, side, orderType, quantity, quoteOrderQty, price, clientId, stopPrice, icebergQuantity)
    }

    function FormParams(): Params
      reads this
    {
      CreateOrderForm(Fields())
    }

    /** The request a new order is sent as: a signed POST whose parameters
        all travel in the form body, none in the query. */
    function Outgoing(endpoint: string): (d: Draft)
      reads this
      ensures d.httpMethod == "POST" && d.endpoint == endpoint && d.secType == SecTypeSigned
      ensures d.query == map[] && d.form == FormParams()
      ensures d.recvWindow == 0 && d.header == map[]
    {
      Draft("POST", endpoint, SecTypeSigned, 0, map[], FormParams(), map[])
    }

    /** The `params` map `createOrder` fills in: the mandatory fields, then
        each optional field that is set. */
    static method BuildForm(f: CreateOrderFields) returns (m: Params)
      ensures m == CreateOrderForm(f)
    {
      m := map["symbol" := Str(f.symbol), "side" := Int(f.side), "type" := Int(f.orderType)];
      if f.quantity.Some? {
        m := m["quantity" := Str(f.quantity.value)];
      }
      if f.quoteOrderQty.Some? {
        m := m["quoteOrderQty" := Str(f.quoteOrderQty.value)];
      }
      if f.price.Some? {
        m := m["price" := Str(f.price.value)];
      }
      if f.clientId.Some? {
        m := m["clientId" := Str(f.clientId.value)];
      }
      if f.stopPrice.Some? {
        m := m["stopPrice" := Str(f.stopPrice.value)];
      }
      if f.icebergQuantity.Some? {
        m := m["icebergQty" := Str(f.icebergQuantity.value)];
      }
    }

    /** `createOrder`: an error from the client discards the data. */
    method CreateOrder(endpoint: string, opts: seq<RequestOption>, env: Environment)
      returns (data: Bytes, err: Option<Error>)
      ensures var reply := c.Call(Outgoing(endpoint), opts, env);
        && err == reply.err
        && data == if reply.err.Some? then [] else reply.data.GetOr([])
    {
      var r := new Request("POST", endpoint, SecTypeSigned);
      var m := BuildForm(Fields());
      r.SetFormParams(m);
      assert r.Snapshot() == Outgoing(endpoint);
      var reply, e := c.CallAPI(r, opts, env);
      if e.Some? {
        return [], e;
      }
      return reply.GetOr([]), None;
    }

    /** `Do`: creates the order at the orders endpoint and decodes the reply. */
    method Do(opts: seq<RequestOption>, env: Environment) returns (res: Option<Decoded>, err: Option<Error>)
      ensures Outcome(res, err) ==
        Finish(CreateOrderResponseType, c.Call(Outgoing(OrdersEndpoint), opts, env), env.decode)
    {
      var data;
      data, err := CreateOrder(OrdersEndpoint, opts, env);
      if err.Some? {
        return None, err;
      }
      err := env.decode(CreateOrderResponseType, data);
      if err.Some? {
        return None, err;
      }
      res := Some(Decoded(CreateOrderResponseType, data));
    }
  }

  class GetOrderService {
    var c: Client
    var orderID: Option<int64>

    constructor (c: Client)
      ensures this.c == c && orderID.None?
    {
      this.c := c;
      orderID := None;
    }

    method OrderID(orderID: int64) returns (s: GetOrderService)
      modifies this`orderID
      ensures this.orderID == Some(orderID) && s == this
    {
      this.orderID := Some(orderID);
      s := this;
    }

    /** A signed GET of the order detail; `orderId` is sent exactly when it
        was set, and nothing else. */
    function Outgoing(): (d: Draft)
      reads this
      ensures d.httpMethod == "GET" && d.endpoint == OrderDetailEndpoint && d.secType == SecTypeSigned
      ensures ("orderId" in d.query <==> orderID.Some?)
      ensures orderID.Some? ==> d.query["orderId"] == Int(orderID.value as int)
      ensures d.query.Keys <= {"orderId"}
      ensures d.form == map[] && d.recvWindow == 0 && d.header == map[]
    {
      Draft("GET", OrderDetailEndpoint, SecTypeSigned, 0,
            OptionalParam("orderId", orderID.Map(v => Int(v as int))), map[], map[])
    }

    method Do(opts: seq<RequestOption>, env: Environment) returns (res: Option<Decoded>, err: Option<Error>)
      ensures Outcome(res, err) ==
        Finish(GetOrderDetailResponseType, c.Call(Outgoing(), opts, env), env.decode)
    {
      var r := new Request("GET", OrderDetailEndpoint, SecTypeSigned);
      if orderID.Some? {
        r.SetParam("orderId", Int(orderID.value as int));
      }
      assert r.Snapshot() == Outgoing();
      var data;
      data, err := c.CallAPI(r, opts, env);
      if err.Some? {
        return None, err;
      }
      err := env.decode(GetOrderDetailResponseType, data.GetOr([]));
      if err.Some? {
        return None, err;
      }
      res := Some(Decoded(GetOrderDetailResponseType, data.GetOr([])));
    }
  }

  class CancelOrderService {
    var c: Client
    var orderID: int64

    constructor (c: Client)
      ensures this.c == c && orderID == 0
    {
      this.c := c;
      orderID := 0;
    }

    method OrderID(orderID: int64) returns (s: CancelOrderService)
      modifies this`orderID
      ensures this.orderID == orderID && s == this
    {
      this.orderID := orderID;
      s := this;
    }

    /** A signed POST to the cancel endpoint that always carries `orderId`,
        the zero default included, and nothing else. */
    function Outgoing(): (d: Draft)
      reads this
      ensures d.httpMethod == "POST" && d.endpoint == CancelOrderEndpoint && d.secType == SecTypeSigned
      ensures "orderId" in d.query && d.query["orderId"] == Int(orderID as int)
      ensures d.query.Keys == {"orderId"}
      ensures d.form == map[] && d.recvWindow == 0 && d.header == map[]
    {
      Draft("POST", CancelOrderEndpoint, SecTypeSigned, 0, map["orderId" := Int(orderID as int)], map[], map[])
    }

    method Do(opts: seq<RequestOption>, env: Environment) returns (res: Option<Decoded>, err: Option<Error>)
      ensures Outcome(res, err) ==
        Finish(CancelOrderResponseType, c.Call(Outgoing(), opts, env), env.decode)
    {
      var r := new Request("POST", CancelOrderEndpoint, SecTypeSigned);
      r.SetParam("orderId", Int(orderID as int));
      var data;
      data, err := c.CallAPI(r, opts, env);
      if err.Some? {
        return None, err;
      }
      err := env.decode(CancelOrderResponseType, data.GetOr([]));
      if err.Some? {
        return None, err;
      }
      res := Some(Decoded(CancelOrderResponseType, data.GetOr([])));
    }
  }

  class ListOrdersService {
    var c: Client
    var symbol: string
    var listOrdersType: Option<int>
    var side: Option<int>
    var startTime: Option<int64>
    var endTime: Option<int64>
    var fromId: Option<string>
    var direct: Option<string>
    var limit: Option<int>

    constructor (c: Client)
      ensures this.c == c && symbol == ""
      ensures listOrdersType.None? && side.None? && startTime.None? && endTime.None?
      ensures fromId.None? && direct.None? && limit.None?
    {
      this.c := c;
      symbol := "";
      listOrdersType, side, startTime, endTime := None, None, None, None;
      fromId, direct, limit := None, None, None;
    }

    method Symbol(symbol: string) returns (s: ListOrdersService)
      modifies this`symbol
      ensures this.symbol == symbol && s == this
    {
      this.symbol := symbol;
      s := this;
    }

    method ListOrdersType(listOrdersType: int) returns (s: ListOrdersService)
      modifies this`listOrdersType
      ensures this.listOrdersType == Some(listOrdersType) && s == this
    {
      this.listOrdersType := Some(listOrdersType);
      s := this;
    }

    method Side(side: int) returns (s: ListOrdersService)
      modifies this`side
      ensures this.side == Some(side) && s == this
    {
      this.side := Some(side);
      s := this;
    }

    method StartTime(startTime: int64) returns (s: ListOrdersService)
      modifies this`startTime
      ensures this.startTime == Some(startTime) && s == this
    {
      this.startTime := Some(startTime);
      s := this;
    }

    method EndTime(endTime: int64) returns (s: ListOrdersService)
      modifies this`endTime
      ensures this.endTime == Some(endTime) && s == this
    {
      this.endTime := Some(endTime);
      s := this;
    }

    method FromId(fromId: string) returns (s: ListOrdersService)
      modifies this`fromId
      ensures this.fromId == Some(fromId) && s == this
    {
      this.fromId := Some(fromId);
      s := this;
    }

    method Direction(direction: string) returns (s: ListOrdersService)
      modifies this`direct
      ensures this.direct == Some(direction) && s == this
    {
      this.direct := Some(direction);
      s := this;
    }

    method Limit(limit: int) returns (s: ListOrdersService)
      modifies this`limit
      ensures this.limit == Some(limit) && s == this
    {
      this.limit := Some(limit);
      s := this;
    }

    /** The builder's fields as one value. */
    function Fields(): ListOrdersFields
      reads this
    {
      ListOrdersFields(symbol, listOrdersType, side, startTime, endTime, fromId, direct, limit)
    }

    /** A signed GET of the orders endpoint carrying the list query. */
    function Outgoing(): (d: Draft)
      reads this
      ensures d.httpMethod == "GET" && d.endpoint == OrdersEndpoint && d.secType == SecTypeSigned
      ensures d.query == ListOrdersQuery(Fields())
      ensures d.form == map[] && d.recvWindow == 0 && d.header == map[]
    {
      Draft("GET", OrdersEndpoint, SecTypeSigned, 0, ListOrdersQuery(Fields()), map[], map[])
    }

    /** The `setParam` calls of `Do`: the symbol, then each optional field
        that is set. */
    method FillQuery(r: Request)
      requires r.query == map[]
      modifies r`query
      ensures r.query == ListOrdersQuery(Fields())
    {
      r.SetParam("symbol", Str(symbol));
      if listOrdersType.Some? {
        r.SetParam("listOrdersType", Ref(Int(listOrdersType.value)));
      }
      if side.Some? {
        r.SetParam("side", Ref(Int(side.value)));
      }
      if startTime.Some? {
        r.SetParam("startTime", Int(startTime.value as int));
      }
      if endTime.Some? {
        r.SetParam("endTime", Int(endTime.value as int));
      }
      if fromId.Some? {
        r.SetParam("fromId", Ref(Str(fromId.value)));
      }
      if direct.Some? {
        r.SetParam("direct", Ref(Str(direct.value)));
      }
      if limit.Some? {
        r.SetParam("limit", Int(limit.value));
      }
    }

    /** `Do`: an error yields an empty list (modelled as no result). */
    method Do(opts: seq<RequestOption>, env: Environment) returns (res: Option<Decoded>, err: Option<Error>)
      ensures Outcome(res, err) ==
        Finish(ListOrdersResponseType, c.Call(Outgoing(), opts, env), env.decode)
    {
      var r := new Request("GET", OrdersEndpoint, SecTypeSigned);
      FillQuery(r);
      assert r.Snapshot() == Outgoing();
      var data;
      data, err := c.CallAPI(r, opts, env);
      if err.Some? {
        return None, err;
      }
      err := env.decode(ListOrdersResponseType, data.GetOr([]));
      if err.Some? {
        return None, err;
      }
      res := Some(Decoded(ListOrdersResponseType, data.GetOr([])));
    }
  }

  /** As written, `QuoteOrderQty` fills the client id: the quote quantity is
      sent as `clientId` and `quoteOrderQty` is never sent. */
  method QuoteOrderQtySentAsClientId(c: Client, qty: string) returns (form: Params)
    ensures "quoteOrderQty" !in form
    ensures "clientId" in form && form["clientId"] == Str(qty)
  {
    var s := new CreateOrderService(c);
    var same := s.QuoteOrderQty(qty);
    form := s.FormParams();
    CreateOrderOptional(s.Fields());
  }

  /** As written, `QuoteOrderQty` and `ClientId` overwrite each other: the one
      called last decides `clientId`. */
  method LastOfQuoteOrderQtyAndClientIdWins(c: Client, qty: string, id: string)
    returns (idLast: Params, qtyLast: Params)
    ensures "clientId" in idLast && idLast["clientId"] == Str(id)
    ensures "clientId" in qtyLast && qtyLast["clientId"] == Str(qty)
    ensures "quoteOrderQty" !in idLast && "quoteOrderQty" !in qtyLast
  {
    var s := new CreateOrderService(c);
    var same := s.QuoteOrderQty(qty);
    same := s.ClientId(id);
    idLast := s.FormParams();
    CreateOrderOptional(s.Fields());
    var t := new CreateOrderService(c);
    same := t.ClientId(id);
    same := t.QuoteOrderQty(qty);
    qtyLast := t.FormParams();
    CreateOrderOptional(t.Fields());
  }

  /** With the corrected setter both values are sent, each under its own key,
      in either order of calls. */
  method CorrectedQuoteOrderQtyIsSent(c: Client, qty: string, id: string)
    returns (qtyFirst: Params, idFirst: Params)
    ensures "quoteOrderQty" in qtyFirst && qtyFirst["quoteOrderQty"] == Str(qty)
    ensures "clientId" in qtyFirst && qtyFirst["clientId"] == Str(id)
    ensures "quoteOrderQty" in idFirst && idFirst["quoteOrderQty"] == Str(qty)
    ensures "clientId" in idFirst && idFirst["clientId"] == Str(id)
  {
    var s := new CreateOrderService(c);
    var same := s.CorrectedQuoteOrderQty(qty);
    same := s.ClientId(id);
    qtyFirst := s.FormParams();
    CreateOrderOptional(s.Fields());
    var t := new CreateOrderService(c);
    same := t.ClientId(id);
    same := t.CorrectedQuoteOrderQty(qty);
    idFirst := t.FormParams();
    CreateOrderOptional(t.Fields());
  }
}
