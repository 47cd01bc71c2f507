# go-binance request pipeline, modelled in Dafny

This project models how the go-binance client turns an endpoint call into a
signed HTTP request, and how it sorts the reply. It covers four things:

- **The REST client** (`v2/brokerage/client.go`). `parseRequest` does the following:
  - applies the caller's request options;
  - validates the request;
  - adds `recvWindow` when it is positive and `timestamp` when the request is signed;
  - encodes the query and the form;
  - sets the `Content-Type` and `X-MBX-APIKEY` headers;
  - for signed requests, appends `signature=<lower-case hex HMAC-SHA256 of query and body>` as the last query component;
  - writes the full URL, header and body back into the request.

  `callAPI` then sends the request and sorts the result into three outcomes:
  - failure before a response;
  - API error (status 400 and above);
  - success.

  When closing the body fails, that error is returned only if there was no
  earlier error. The body is still returned as data alongside it.
- **The order services** of the `tr` package (`v2/tr/order_service.go`): create, get, cancel and list orders.
- **The broker services** (`v2/brokerage/brokerage_service.go`): create a sub-account, and create an API key for a sub-account.
- **The sub-account listing service** (`v2/subaccount/subaccount_service.go`).

Each service is a builder object. Its setters store one field and return the
service itself. Its `Do` turns the set fields into request parameters and calls
the client.

Modules:

| module | file | contents |
|---|---|---|
| `Common` | common.dfy | `Option`, Go's `int64`, bytes, parameter values, errors |
| `Hex` | hex.dfy | the `%x` rendering of the signature and its inverse |
| `Requests` | requests.dfy | the request record (a class), its parameter setters and the request options |
| `RestClient` | client.dfy | the client: `parseRequest`, `callAPI`, `FormatTimestamp`, `NewClient` |
| `ClientProperties` | client_properties.dfy | what `parseRequest` and `callAPI` guarantee, for every encoder, MAC and clock |
| `OrderParams` | order_params.dfy | the create-order form and the list-orders query, as functions of the builder fields |
| `Orders` | orders.dfy | the four order services |
| `BrokerageServices` | brokerage_services.dfy | the two broker services |
| `SubAccounts` | subaccounts.dfy | the sub-account listing service |

Several things the client uses come from libraries or from outside the process.
They are collected in an `Environment` value that every operation takes as a
parameter, and every property holds whatever they are:
- the clock, as a fixed reading in nanoseconds (`nowNanos`);
- the outcome of `request.validate`, as a fixed optional error (`validateErr`);
  it is the same for every request sent under one environment;
- `url.Values.Encode`, HMAC-SHA256, the HTTP exchange, the parsing of an API
  error body and JSON decoding, as function-valued fields; each of them is
  deterministic.

The HTTP exchange is an `Exchange` value with four cases:
- the request was rejected;
- the transport failed;
- reading the body failed;
- a response came back, with its status, body and the result of closing the body.

A parameter passed by pointer (for example `r.setParam("side", s.side)`) is
recorded as a `Ref` value. The model records that the value was a pointer and
what it pointed to. It makes no claim about how the pointer is rendered.

## Model

| member | source | states |
|---|---|---|
| `Hex.Digit` | v2/brokerage/client.go:172 | a nibble renders as a lower-case hexadecimal digit |
| `Hex.DigitTable` | v2/brokerage/client.go:172 | each nibble renders as its digit in `0123456789abcdef` |
| `Hex.HexByte` | v2/brokerage/client.go:172 | a byte renders as two digits, the high nibble's value first and the low nibble's second |
| `Hex.DigitValue` | v2/brokerage/client.go:172 | a character has a digit value exactly when it is a lower-case hex digit, and that value renders back to the character |
| `Hex.HexEncode` | v2/brokerage/client.go:172 | `%x` of a byte slice is twice as long as the slice and consists of lower-case hex digits only |
| `Hex.HexEncodePositions` | v2/brokerage/client.go:172 | byte `i` of the slice is rendered at positions `2i` and `2i+1`, so the rendering keeps the byte order |
| `Hex.HexDecode` | v2/brokerage/client.go:172 | a successful decoding yields half as many bytes as there are characters |
| `Hex.HexRoundTrip` | v2/brokerage/client.go:172 | decoding the `%x` rendering of any byte slice gives the slice back |
| `Hex.HexInjective` | v2/brokerage/client.go:172 | two MACs with the same rendering are equal |
| `Requests.ApplyOption` | v2/brokerage/client.go:134-136 | a receive-window option sets the window and leaves the header alone; the header options leave the window alone |
| `Requests.ApplyOptions` | v2/brokerage/client.go:134-136 | the options applied in order, first to last; no contract of its own: `Requests.OptionsWindow` states its properties, and `RestClient.ApplyAll` is proved equal to it |
| `Requests.OptionsWindow` | v2/brokerage/client.go:134-136 | after the options the receive window is the request's own unless an option set it, and otherwise the value one of the options gave |
| `Requests.LastWindowOptionWins` | v2/brokerage/client.go:134-136 | the options are applied in order, so the last `WithRecvWindow` option decides the receive window |
| `Requests.OptionalParam` | v2/tr/order_service.go:193-195 | an optional parameter's key is present exactly when the field is set, it carries the field's value, and no other key appears |
| `Requests.Request.constructor` | v2/tr/order_service.go:87-91 | a new request has the given method, endpoint and security type, and every other field is empty or zero |
| `Requests.Request.SetParam` | v2/tr/order_service.go:194 | sets one query parameter, replacing an earlier value, and changes nothing else |
| `Requests.Request.SetFormParam` | v2/tr/order_service.go:122 | sets one form parameter, replacing an earlier value, and changes nothing else |
| `Requests.Request.SetFormParams` | v2/tr/order_service.go:122 | afterwards the form is the old form overridden by every entry of the map; the loop keeps done keys set and pending keys untouched |
| `Requests.Request.Apply` | v2/brokerage/client.go:135 | one option changes the window and header exactly as `ApplyOption` says, and nothing else |
| `RestClient.FormatTimestamp` | v2/brokerage/client.go:93-95 | milliseconds by Go's truncating division: the remainder is below one million in magnitude and has the sign of the nanoseconds |
| `RestClient.Sub64` | v2/brokerage/client.go:147 | int64 subtraction: congruent to the exact difference modulo 2^64, and equal to it when it fits |
| `RestClient.InjectParams` | v2/brokerage/client.go:143-148 | the query gains `recvWindow` exactly when the window is positive and `timestamp` exactly when the request is signed, with their values; every other key keeps its value |
| `RestClient.SignatureComponent` | v2/brokerage/client.go:171-172 | `signature=` and the hex MAC; no contract of its own: `ClientProperties.SignatureIsLastComponent` and `ClientProperties.SignatureRecoverable` state its properties |
| `RestClient.SignQuery` | v2/brokerage/client.go:164-178 | the signed query string; no contract of its own: `ClientProperties.SignatureIsLastComponent` states its shape |
| `RestClient.WithQuery` | v2/brokerage/client.go:179-181 | the full URL; no contract of its own: `ClientProperties.FullURLShape` states its shape |
| `RestClient.RequestHeader` | v2/brokerage/client.go:152-162 | the header sent; no contract of its own: `ClientProperties.HeaderAndBody` states its entries |
| `RestClient.Classify` | v2/brokerage/client.go:195-234 | a failure before a response gives empty data and that error; status 400 and above gives nil data and an API error whatever the body; otherwise the body, with a close error reported only then; no error exactly when the status is below 400 and the close succeeded |
| `RestClient.Finish` | v2/tr/order_service.go:137-148 | a service's `Do` returns a result exactly when it returns no error; a client error is passed up unchanged; otherwise the decode error, or the decoded body |
| `RestClient.ApplyAll` | v2/brokerage/client.go:134-136 | the options are applied in order, first to last; the loop invariant says the first `i` have been applied |
| `RestClient.Client.Timestamp` | v2/brokerage/client.go:147 | the timestamp is congruent, modulo 2^64, to the clock in milliseconds minus the client's offset |
| `RestClient.Client.Prepare` | v2/brokerage/client.go:132-188 | what `parseRequest` makes of a request that passes validation; no contract of its own: the `ClientProperties` lemmas state its properties, and `ParseRequest` is proved against it |
| `RestClient.Client.Call` | v2/brokerage/client.go:190-194 | a validation error gives empty data and that error; no error implies that validation passed and some data was returned |
| `RestClient.Client.ParseRequest` | v2/brokerage/client.go:132-188 | the error is the validation error; on error, only the options have been applied, and URL, body and query are untouched, the header being what the options made it; on success, window, query, header, body and URL are those of `Prepare` on the original request; method, endpoint, security type and form never change |
| `RestClient.Client.Assemble` | v2/brokerage/client.go:142-186 | after validation: the query is the injected query, the header is the request header with content type and API key as they apply, the body is the encoded form, and the full URL carries the signed query string |
| `RestClient.Client.CallAPI` | v2/brokerage/client.go:190-235 | the data and error returned are `Call` on the original request: the validation error, then `Classify` of the exchange of the prepared request; the request is left as `parseRequest` leaves it: on a validation error only the options are applied, otherwise window, query, header, body and URL are those of `Prepare`; method, endpoint, security type and form never change |
| `RestClient.NewClient` | v2/brokerage/client.go:100-109 | a new client holds the two keys, the main base URL and the `Binance/golang` agent, with no time offset and no debugging |
| `ClientProperties.InjectedParameters` | v2/brokerage/client.go:143-148 | `recvWindow` is in the query exactly when the option-adjusted window is positive; `timestamp` is there exactly when the request is signed; their values; every other key the caller set is kept |
| `ClientProperties.TimestampValue` | v2/brokerage/client.go:88-95 | without overflow the timestamp is the clock in milliseconds minus the client's offset |
| `ClientProperties.HeaderAndBody` | v2/brokerage/client.go:149-162 | the API key header is set to the key exactly for API-key and signed requests; the form content type and the body are present exactly when the encoded form is non-empty; every other header, including an option-supplied API key on an unkeyed request or content type with an empty form, comes from the options with its value unchanged |
| `ClientProperties.SignatureIsLastComponent` | v2/brokerage/client.go:164-178 | a signed query string is the encoded query, then `&` only if that query was non-empty, then `signature=` and the hex MAC of query and body computed after injection; unsigned requests carry no signature |
| `ClientProperties.FullURLShape` | v2/brokerage/client.go:142-181 | the URL is base URL and endpoint, then `?` and the query string exactly when it is non-empty; a signed request always has one |
| `ClientProperties.SignatureRecoverable` | v2/brokerage/client.go:171-181 | the MAC can be read back from the last characters of a signed request's URL |
| `ClientProperties.APIKeyOnlyInHeader` | v2/brokerage/client.go:160-162 | changing the API key changes neither the query, the query string, the body nor the URL |
| `ClientProperties.SecretKeyNeverSent` | v2/brokerage/client.go:164-172 | changing the secret changes neither header, body nor query, nor the URL of an unsigned request |
| `ClientProperties.SameURLSameSignature` | v2/brokerage/client.go:164-181 | two signed requests with the same URL, whose MACs have equal length, carry the same MAC |
| `ClientProperties.ServiceOutcome` | v2/brokerage/client.go:190-234 | end to end, a `Do` returns a result exactly when validation passed, the status is below 400, closing succeeded and the body decodes; otherwise it returns the first error met, in that order: validation, transport, API error, close error, then the decoding error |
| `OrderParams.CreateOrderForm` | v2/tr/order_service.go:92-120 | the create-order form; no contract of its own: `CreateOrderMandatory`, `CreateOrderOptional` and `CreateOrderNoOtherKeys` state its keys and values |
| `OrderParams.CreateOrderMandatory` | v2/tr/order_service.go:92-96 | `symbol`, `side` and `type` are always in the create-order form, with the builder's values |
| `OrderParams.CreateOrderOptional` | v2/tr/order_service.go:98-120 | each optional order field is in the form exactly when it is set, with its value; the iceberg quantity under `icebergQty` |
| `OrderParams.CreateOrderNoOtherKeys` | v2/tr/order_service.go:92-120 | the form holds no key beyond the nine, and never `icebergQuantity` |
| `OrderParams.ListOrdersQuery` | v2/tr/order_service.go:362-390 | the list-orders query; no contract of its own: `ListOrdersPresence`, `ListOrdersValues` and `ListOrdersNoOtherKeys` state its keys and values |
| `OrderParams.ListOrdersPresence` | v2/tr/order_service.go:362-390 | `symbol` is always queried; each of the seven filters exactly when it is set |
| `OrderParams.ListOrdersValues` | v2/tr/order_service.go:362-390 | the values: type, side, start id and direction as pointers; times and limit as values |
| `OrderParams.ListOrdersNoOtherKeys` | v2/tr/order_service.go:362-390 | the list query holds no key beyond the eight |
| `Orders.CreateOrderService.constructor` | v2/tr/order_service.go:9-20 | a new create-order builder has every field at its zero value |
| `Orders.CreateOrderService.Symbol` | v2/tr/order_service.go:33-36 | sets the symbol only and returns the receiver |
| `Orders.CreateOrderService.Side` | v2/tr/order_service.go:39-42 | sets the side only and returns the receiver |
| `Orders.CreateOrderService.Type` | v2/tr/order_service.go:45-48 | sets the order type only and returns the receiver |
| `Orders.CreateOrderService.Quantity` | v2/tr/order_service.go:51-54 | sets the quantity only and returns the receiver |
| `Orders.CreateOrderService.QuoteOrderQty` | v2/tr/order_service.go:56-60 | as written: sets the client id, and only it, to the quote quantity |
| `Orders.CreateOrderService.CorrectedQuoteOrderQty` | v2/tr/order_service.go:56-60 | the intended setter: sets the quote quantity only |
| `Orders.CreateOrderService.Price` | v2/tr/order_service.go:63-66 | sets the price only and returns the receiver |
| `Orders.CreateOrderService.ClientId` | v2/tr/order_service.go:69-72 | sets the client id only and returns the receiver |
| `Orders.CreateOrderService.StopPrice` | v2/tr/order_service.go:75-78 | sets the stop price only and returns the receiver |
| `Orders.CreateOrderService.IcebergQuantity` | v2/tr/order_service.go:81-84 | sets the iceberg quantity only and returns the receiver |
| `Orders.CreateOrderService.Outgoing` | v2/tr/order_service.go:87-122 | a new order is a signed POST with an empty query and every parameter in the form |
| `Orders.CreateOrderService.BuildForm` | v2/tr/order_service.go:92-120 | the map `createOrder` fills in is the create-order form of the fields |
| `Orders.CreateOrderService.CreateOrder` | v2/tr/order_service.go:86-131 | returns the client's error, with empty data when there is one, and the client's data otherwise |
| `Orders.CreateOrderService.Do` | v2/tr/order_service.go:134-149 | the result is `Finish` of the client's reply to the new-order request at `/open/v1/orders` |
| `Orders.GetOrderService.constructor` | v2/tr/order_service.go:152-155 | a new builder has no order id |
| `Orders.GetOrderService.OrderID` | v2/tr/order_service.go:180-183 | sets the order id only and returns the receiver |
| `Orders.GetOrderService.Outgoing` | v2/tr/order_service.go:187-195 | a signed GET of the order detail; `orderId` is queried exactly when it is set, and nothing else is |
| `Orders.GetOrderService.Do` | v2/tr/order_service.go:186-207 | the result is `Finish` of the client's reply to that request |
| `Orders.CancelOrderService.constructor` | v2/tr/order_service.go:210-213 | a new builder has order id zero |
| `Orders.CancelOrderService.OrderID` | v2/tr/order_service.go:238-241 | sets the order id only and returns the receiver |
| `Orders.CancelOrderService.Outgoing` | v2/tr/order_service.go:245-251 | a signed POST to the cancel endpoint whose query is exactly `orderId`, the zero default included |
| `Orders.CancelOrderService.Do` | v2/tr/order_service.go:244-263 | the result is `Finish` of the client's reply to that request |
| `Orders.ListOrdersService.constructor` | v2/tr/order_service.go:266-276 | a new builder has an empty symbol and no filter |
| `Orders.ListOrdersService.Symbol` | v2/tr/order_service.go:307-310 | sets the symbol only and returns the receiver |
| `Orders.ListOrdersService.ListOrdersType` | v2/tr/order_service.go:313-316 | sets the list type only and returns the receiver |
| `Orders.ListOrdersService.Side` | v2/tr/order_service.go:319-322 | sets the side only and returns the receiver |
| `Orders.ListOrdersService.StartTime` | v2/tr/order_service.go:325-328 | sets the start time only and returns the receiver |
| `Orders.ListOrdersService.EndTime` | v2/tr/order_service.go:331-334 | sets the end time only and returns the receiver |
| `Orders.ListOrdersService.FromId` | v2/tr/order_service.go:337-340 | sets the start id only and returns the receiver |
| `Orders.ListOrdersService.Direction` | v2/tr/order_service.go:343-346 | sets the direction only and returns the receiver |
| `Orders.ListOrdersService.Limit` | v2/tr/order_service.go:349-352 | sets the limit only and returns the receiver |
| `Orders.ListOrdersService.Outgoing` | v2/tr/order_service.go:356-360 | a signed GET of `/open/v1/orders` whose query is the list-orders query of the fields |
| `Orders.ListOrdersService.FillQuery` | v2/tr/order_service.go:362-390 | the `setParam` calls leave exactly the list-orders query in the request |
| `Orders.ListOrdersService.Do` | v2/tr/order_service.go:355-402 | the result is `Finish` of the client's reply to that request; an error gives no list |
| `Orders.QuoteOrderQtySentAsClientId` | v2/tr/order_service.go:56-112 | as written, a quote quantity is sent as `clientId` and `quoteOrderQty` is never sent |
| `Orders.LastOfQuoteOrderQtyAndClientIdWins` | v2/tr/order_service.go:56-72 | as written, whichever of `QuoteOrderQty` and `ClientId` is called last decides `clientId` |
| `Orders.CorrectedQuoteOrderQtyIsSent` | v2/tr/order_service.go:102-112 | with the corrected setter, quote quantity and client id are both sent, each under its own key, whichever setter is called first |
| `BrokerageServices.CreateSubAccountService.constructor` | v2/brokerage/client.go:238-240 | a new builder holds the client and no tag |
| `BrokerageServices.CreateSubAccountService.Tag` | v2/brokerage/brokerage_service.go:14-17 | sets the tag only and returns the receiver |
| `BrokerageServices.CreateSubAccountService.Outgoing` | v2/brokerage/brokerage_service.go:20-28 | a signed POST to `/sapi/v1/broker/subAccount` whose query holds `tag` exactly when it is set, and nothing else |
| `BrokerageServices.CreateSubAccountService.Do` | v2/brokerage/brokerage_service.go:19-42 | the result is `Finish` of the client's reply to that request, sent without options |
| `BrokerageServices.CreateApiKeyForSubAccountService.constructor` | v2/brokerage/client.go:243-245 | a new builder has an empty id, `canTrade` false and neither optional flag |
| `BrokerageServices.CreateApiKeyForSubAccountService.SubAccountID` | v2/brokerage/brokerage_service.go:59-62 | sets the sub-account id only and returns the receiver |
| `BrokerageServices.CreateApiKeyForSubAccountService.CanTrade` | v2/brokerage/brokerage_service.go:65-68 | sets the trade flag only and returns the receiver |
| `BrokerageServices.CreateApiKeyForSubAccountService.MarginTrade` | v2/brokerage/brokerage_service.go:71-74 | sets the margin flag only and returns the receiver |
| `BrokerageServices.CreateApiKeyForSubAccountService.FuturesTrade` | v2/brokerage/brokerage_service.go:77-80 | sets the futures flag only and returns the receiver |
| `BrokerageServices.CreateApiKeyForSubAccountService.Outgoing` | v2/brokerage/brokerage_service.go:83-98 | a signed POST to `/sapi/v1/broker/subAccountApi`; `subAccountId` and `canTrade` are always sent, even when empty or false; `marginTrade` (a value) and `futuresTrade` (a pointer) exactly when set; nothing else |
| `BrokerageServices.CreateApiKeyForSubAccountService.Do` | v2/brokerage/brokerage_service.go:82-112 | the result is `Finish` of the client's reply to that request, sent without options |
| `SubAccounts.GetSubAccountListService.constructor` | v2/subaccount/subaccount_service.go:8-14 | a new builder has no filter set |
| `SubAccounts.GetSubAccountListService.Email` | v2/subaccount/subaccount_service.go:16-19 | sets the email filter only and returns the receiver |
| `SubAccounts.GetSubAccountListService.IsFreeze` | v2/subaccount/subaccount_service.go:21-24 | sets the freeze filter only and returns the receiver |
| `SubAccounts.GetSubAccountListService.Page` | v2/subaccount/subaccount_service.go:26-29 | sets the page only and returns the receiver |
| `SubAccounts.GetSubAccountListService.Limit` | v2/subaccount/subaccount_service.go:31-34 | sets the limit only and returns the receiver |
| `SubAccounts.GetSubAccountListService.Outgoing` | v2/subaccount/subaccount_service.go:37-57 | a signed GET of `/sapi/v1/sub-account/list`; each filter is queried, as a pointer, exactly when it is set; nothing else, so an unfiltered listing adds no parameter |
| `SubAccounts.GetSubAccountListService.Do` | v2/subaccount/subaccount_service.go:36-71 | the result is `Finish` of the client's reply to that request, sent without options |

## Left out

- HTTP I/O: building the `http.Request`, the context, `HTTPClient.Do`, reading and closing the body. Each outcome is an `Exchange` value given to `callAPI`. That includes the request being rejected, the transport or the read failing, and a response arriving with a close result.
- HMAC-SHA256 and `url.Values.Encode` are uninterpreted functions. Percent-encoding and key sorting are not modelled. The one exception is the signature component, which is written as `signature=` followed by the hex digits, since those need no escaping.
- `mac.Write` on a hash never returns an error, so that error branch of `parseRequest` is not modelled.
- The `request` type, `request.validate` and the option functions are defined in a file of each package that is not part of this model.
  - Validation's outcome is an input.
  - The options are modelled as setting the receive window, adding or replacing one header value, or replacing the header.
  - `setParam` and `setFormParams` are modelled as updates of a string-keyed map; how they render values as text, pointers included, is not modelled.
- The `tr` and `subaccount` packages have their own `client.go`, which is not part of this model. Their services are modelled on the brokerage client, and their constructors as plain zero-field builders.
- Header names are stored as written (`X-MBX-APIKEY`). Go's canonicalisation of header keys is not modelled.
- JSON decoding and the response structs, which include `float64` fields, are not modelled. Decoding is an opaque success or failure, and a result is the decoded type's name with the bytes it came from. A JSON `null` body, which makes Go's `Unmarshal` leave a nil result, is not distinguished.
- `Orders.ListOrdersService.Do`: on error, Go returns an empty, non-nil slice. The model returns no result, the same as for the other services' nil.
- Services hold a copy of the client. In Go, `NewClient` returns a pointer, and every service shares it. So a later assignment to an exported field (`APIKey`, `SecretKey`, `BaseURL`, `TimeOffset`) changes what existing services send. The model's `Client` is an immutable value: this shared mutation and aliasing are not modelled.
- Go's `int` (side, order type, list type, page, limit) is modelled as an unbounded integer. These values are only passed through.
- Debug logging and the `Logger` are not modelled. The client keeps its `UserAgent` field, which `callAPI` never sends.
- `v2/capital_config_service.go`: one fixed signed GET followed by decoding, with no parameter logic.

## Findings

| source | as written | input that shows it | evidently intended | confidence | as-written member | corrected member |
|---|---|---|---|---|---|---|
| v2/tr/order_service.go:56-60 | `QuoteOrderQty` stores its argument in `clientId` | `NewCreateOrderService().QuoteOrderQty("10")` sends `clientId=10` and no `quoteOrderQty`. Adding `.ClientId("a")` afterwards drops the quantity entirely | the setter stores the value in `quoteOrderQty`, which `createOrder` sends under its own key (lines 102-104) | high, not executed | `Orders.QuoteOrderQtySentAsClientId`, `Orders.LastOfQuoteOrderQtyAndClientIdWins` | `Orders.CreateOrderService.CorrectedQuoteOrderQty`, `Orders.CorrectedQuoteOrderQtyIsSent` |
