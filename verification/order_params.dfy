/** The parameters the order services send, as functions of the services'
    fields: the form of a new order and the query of an order listing. */
module OrderParams {
  import opened Common

  /** The keys a create-order form can hold. */
  const CreateOrderKeys: set<string> :=
    {"symbol", "side", "type", "quantity", "quoteOrderQty", "price", "clientId", "stopPrice", "icebergQty"}

  /** The keys a list-orders query can hold. */
  const ListOrdersKeys: set<string> :=
    {"symbol", "listOrdersType", "side", "startTime", "endTime", "fromId", "direct", "limit"}

  /** The fields of a create-order builder. */
  datatype CreateOrderFields = CreateOrderFields(
    symbol: string,
    side: int,
    orderType: int,
    quantity: Option<string>,
    quoteOrderQty: Option<string>,
    price: Option<string>,
    clientId: Option<string>,
    stopPrice: Option<string>,
    icebergQuantity: Option<string>)

  /** The form parameters of a new order, in the order `createOrder` adds them. */
  function CreateOrderForm(f: CreateOrderFields): Params
  {
    var m := map["symbol" := Str(f.symbol), "side" := Int(f.side), "type" := Int(f.orderType)];
    var m := if f.quantity.Some? then m["quantity" := Str(f.quantity.value)] else m;
    var m := if f.quoteOrderQty.Some? then m["quoteOrderQty" := Str(f.quoteOrderQty.value)] else m;
    var m := if f.price.Some? then m["price" := Str(f.price.value)] else m;
    var m := if f.clientId.Some? then m["clientId" := Str(f.clientId.value)] else m;
    var m := if f.stopPrice.Some? then m["stopPrice" := Str(f.stopPrice.value)] else m;
    if f.icebergQuantity.Some? then m["icebergQty" := Str(f.icebergQuantity.value)] else m
  }

  /** Symbol, side and type are always sent. */
  lemma CreateOrderMandatory(f: CreateOrderFields)
    ensures "symbol" in CreateOrderForm(f) && CreateOrderForm(f)["symbol"] == Str(f.symbol)
    ensures "side" in CreateOrderForm(f) && CreateOrderForm(f)["side"] == Int(f.side)
    ensures "type" in CreateOrderForm(f) && CreateOrderForm(f)["type"] == Int(f.orderType)
  {
  }

  /** Each optional field is sent exactly when it is set, with its value; the
      iceberg quantity travels under `icebergQty`. */
  lemma CreateOrderOptional(f: CreateOrderFields)
    ensures ("quantity" in CreateOrderForm(f) <==> f.quantity.Some?)
    ensures f.quantity.Some? ==> CreateOrderForm(f)["quantity"] == Str(f.quantity.value)
    ensures ("quoteOrderQty" in CreateOrderForm(f) <==> f.quoteOrderQty.Some?)
    ensures f.quoteOrderQty.Some? ==> CreateOrderForm(f)["quoteOrderQty"] == Str(f.quoteOrderQty.value)
    ensures ("price" in CreateOrderForm(f) <==> f.price.Some?)
    ensures f.price.Some? ==> CreateOrderForm(f)["price"] == Str(f.price.value)
    ensures ("clientId" in CreateOrderForm(f) <==> f.clientId.Some?)
    ensures f.clientId.Some? ==> CreateOrderForm(f)["clientId"] == Str(f.clientId.value)
    ensures ("stopPrice" in CreateOrderForm(f) <==> f.stopPrice.Some?)
    ensures f.stopPrice.Some? ==> CreateOrderForm(f)["stopPrice"] == Str(f.stopPrice.value)
    ensures ("icebergQty" in CreateOrderForm(f) <==> f.icebergQuantity.Some?)
    ensures f.icebergQuantity.Some? ==> CreateOrderForm(f)["icebergQty"] == Str(f.icebergQuantity.value)
  {
  }

  /** No key outside the nine above is ever sent. */
  lemma CreateOrderNoOtherKeys(f: CreateOrderFields)
    ensures CreateOrderForm(f).Keys <= CreateOrderKeys
    ensures "icebergQuantity" !in CreateOrderForm(f)
  {
  }

  /** The fields of a list-orders builder. */
  datatype ListOrdersFields = ListOrdersFields(
    symbol: string,
    listOrdersType: Option<int>,
    side: Option<int>,
    startTime: Option<int64>,
    endTime: Option<int64>,
    fromId: Option<string>,
    direct: Option<string>,
    limit: Option<int>)

  /** The query of an order listing, in the order `Do` sets it. The type,
      side, start id and direction are handed over as pointers, the times
      and the limit as values. */
  function ListOrdersQuery(f: ListOrdersFields): Params
  {
    var q := map["symbol" := Str(f.symbol)];
    var q := if f.listOrdersType.Some? then q["listOrdersType" := Ref(Int(f.listOrdersType.value))] else q;
    var q := if f.side.Some? then q["side" := Ref(Int(f.side.value))] else q;
    var q := if f.startTime.Some? then q["startTime" := Int(f.startTime.value as int)] else q;
    var q := if f.endTime.Some? then q["endTime" := Int(f.endTime.value as int)] else q;
    var q := if f.fromId.Some? then q["fromId" := Ref(Str(f.fromId.value))] else q;
    var q := if f.direct.Some? then q["direct" := Ref(Str(f.direct.value))] else q;
    if f.limit.Some? then q["limit" := Int(f.limit.value)] else q
  }

  /** The symbol is always sent, each optional field exactly when it is set. */
  lemma ListOrdersPresence(f: ListOrdersFields)
    ensures "symbol" in ListOrdersQuery(f)
    ensures ("listOrdersType" in ListOrdersQuery(f) <==> f.listOrdersType.Some?)
    ensures ("side" in ListOrdersQuery(f) <==> f.side.Some?)
    ensures ("startTime" in ListOrdersQuery(f) <==> f.startTime.Some?)
    ensures ("endTime" in ListOrdersQuery(f) <==> f.endTime.Some?)
    ensures ("fromId" in ListOrdersQuery(f) <==> f.fromId.Some?)
    ensures ("direct" in ListOrdersQuery(f) <==> f.direct.Some?)
    ensures ("limit" in ListOrdersQuery(f) <==> f.limit.Some?)
  {
  }

  /** What each sent key carries. */
  lemma ListOrdersValues(f: ListOrdersFields)
    ensures ListOrdersQuery(f)["symbol"] == Str(f.symbol)
    ensures f.listOrdersType.Some? ==> ListOrdersQuery(f)["listOrdersType"] == Ref(Int(f.listOrdersType.value))
    ensures f.side.Some? ==> ListOrdersQuery(f)["side"] == Ref(Int(f.side.value))
    ensures f.startTime.Some? ==> ListOrdersQuery(f)["startTime"] == Int(f.startTime.value as int)
    ensures f.endTime.Some? ==> ListOrdersQuery(f)["endTime"] == Int(f.endTime.value as int)
    ensures f.fromId.Some? ==> ListOrdersQuery(f)["fromId"] == Ref(Str(f.fromId.value))
    ensures f.direct.Some? ==> ListOrdersQuery(f)["direct"] == Ref(Str(f.direct.value))
    ensures f.limit.Some? ==> ListOrdersQuery(f)["limit"] == Int(f.limit.value)
  {
    ListOrdersPresence(f);
  }

  /** No key outside the eight above is ever sent. */
  lemma ListOrdersNoOtherKeys(f: ListOrdersFields)
    ensures ListOrdersQuery(f).Keys <= ListOrdersKeys
  {
  }
}
