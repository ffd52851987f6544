/** The `paypal` edge function (supabase/functions/paypal/index.ts): it turns
    the checkout's order data into a PayPal Orders v2 request body and
    dispatches the `create`, `get` and `capture` actions to PayPal.

    The network is abstract: the outcome of the OAuth token request is a
    parameter, and PayPal's answer to each call is given by `remote`. `Serve`
    returns the response together with the calls it made, in order, so that
    which calls happen is part of what is proved. Amounts are whole pence. */
module PayPalFunction {
  import opened Common
  import opened JsText

  // ------------------------------------------------------------ order data

  /** One line of the client's order data; `unitAmount` in pence. */
  datatype LineItem = LineItem(name: string, quantity: int, unitAmount: int)

  /** The client's `orderData`; `amount` (pence) is what the buyer pays. */
  datatype OrderData = OrderData(
    amount: int,
    currency: string,
    items: seq<LineItem>,
    returnUrl: Option<string>,
    cancelUrl: Option<string>)

  /** The `reduce` that sums unit amount times quantity, left to right. */
  function ItemTotal(items: seq<LineItem>): int {
    if items == [] then 0
    else
      var last := items[|items| - 1];
      ItemTotal(items[..|items| - 1]) + last.unitAmount * last.quantity
  }

  /** The item total of two lists of lines is the sum of their item totals. */
  lemma {:induction false} ItemTotalAppend(a: seq<LineItem>, b: seq<LineItem>)
    ensures ItemTotal(a + b) == ItemTotal(a) + ItemTotal(b)
    decreases |b|
  {
    if b == [] {
      assert a + b == a;
    } else {
      assert (a + b)[..|a + b| - 1] == a + b[..|b| - 1];
      ItemTotalAppend(a, b[..|b| - 1]);
    }
  }

  // ------------------------------------------------------------ request body

  datatype Money = Money(currencyCode: string, value: string)
  datatype Breakdown = Breakdown(itemTotal: Money, shipping: Money)
  datatype Amount = Amount(currencyCode: string, value: string, breakdown: Breakdown)
  datatype PayPalItem = PayPalItem(name: string, category: string, quantity: string, unitAmount: Money)
  datatype PurchaseUnit = PurchaseUnit(amount: Amount, items: seq<PayPalItem>)
  datatype ApplicationContext = ApplicationContext(
    landingPage: string,
    userAction: string,
    returnUrl: Option<string>,
    cancelUrl: Option<string>)
  datatype OrderBody = OrderBody(
    intent: string,
    applicationContext: ApplicationContext,
    purchaseUnits: seq<PurchaseUnit>)

  /** `items.map(...)`: one PayPal item per order line, in order. */
  function PayPalItems(items: seq<LineItem>, currency: string): (r: seq<PayPalItem>)
    ensures |r| == |items|
  {
    seq(|items|, i requires 0 <= i < |items| =>
      PayPalItem(items[i].name, "PHYSICAL_GOODS", IntString(items[i].quantity),
                 Money(currency, Fixed2(items[i].unitAmount))))
  }

  /** The JSON body `createOrder` posts to PayPal: intent CAPTURE, the
      optional return and cancel URLs, and one purchase unit whose breakdown
      has the item total and, as shipping, the amount minus the item total. */
  function CreateOrderBody(o: OrderData): (b: OrderBody)
    ensures b.intent == "CAPTURE" && |b.purchaseUnits| == 1
    ensures b.applicationContext.landingPage == "BILLING" && b.applicationContext.userAction == "PAY_NOW"
    ensures b.applicationContext.returnUrl.Some? <==> Truthy(o.returnUrl)
    ensures b.applicationContext.returnUrl.Some? ==> b.applicationContext.returnUrl == o.returnUrl
    ensures b.applicationContext.cancelUrl.Some? <==> Truthy(o.cancelUrl)
    ensures b.applicationContext.cancelUrl.Some? ==> b.applicationContext.cancelUrl == o.cancelUrl
  {
    var itemTotal := ItemTotal(o.items);
    var shipping := o.amount - itemTotal;
    OrderBody(
      "CAPTURE",
      ApplicationContext(
        "BILLING", "PAY_NOW",
        if Truthy(o.returnUrl) then o.returnUrl else None,
        if Truthy(o.cancelUrl) then o.cancelUrl else None),
      [PurchaseUnit(
        Amount(o.currency, Fixed2(o.amount),
               Breakdown(Money(o.currency, Fixed2(itemTotal)), Money(o.currency, Fixed2(shipping)))),
        PayPalItems(o.items, o.currency))])
  }

  /** The purchase unit's three figures as printed from the order, all in
      the order's currency. */
  lemma AmountFigures(o: OrderData)
    ensures var a := CreateOrderBody(o).purchaseUnits[0].amount;
      && a.value == Fixed2(o.amount)
      && a.breakdown.itemTotal.value == Fixed2(ItemTotal(o.items))
      && a.breakdown.shipping.value == Fixed2(o.amount - ItemTotal(o.items))
      && a.currencyCode == a.breakdown.itemTotal.currencyCode == a.breakdown.shipping.currencyCode == o.currency
  {
  }

  /** Read back from the body PayPal receives, the amount is the order's
      amount. The three read-back lemmas together say that the breakdown adds
      up: item total plus shipping is the amount. */
  lemma AmountReadsBack(o: OrderData)
    ensures Fixed2Value(CreateOrderBody(o).purchaseUnits[0].amount.value) == Some(o.amount)
  {
    AmountFigures(o);
    Fixed2RoundTrip(o.amount);
  }

  /** The breakdown's item total reads back as the sum of unit amount times
      quantity over the lines. */
  lemma ItemTotalReadsBack(o: OrderData)
    ensures Fixed2Value(CreateOrderBody(o).purchaseUnits[0].amount.breakdown.itemTotal.value) == Some(ItemTotal(o.items))
  {
    AmountFigures(o);
    Fixed2RoundTrip(ItemTotal(o.items));
  }

  /** The breakdown's shipping reads back as the amount minus the item total. */
  lemma ShippingReadsBack(o: OrderData)
    ensures Fixed2Value(CreateOrderBody(o).purchaseUnits[0].amount.breakdown.shipping.value) == Some(o.amount - ItemTotal(o.items))
  {
    var shipping := o.amount - ItemTotal(o.items);
    var text := CreateOrderBody(o).purchaseUnits[0].amount.breakdown.shipping.value;
    assert text == Fixed2(shipping) by {
      AmountFigures(o);
    }
    PrintedReadsBack(text, shipping);
  }


  /** The body's items match the order lines one to one and in order: same
      name, category PHYSICAL_GOODS, the quantity as text and the unit amount
      with two decimals, both of which read back to the line's numbers. */
  lemma ItemsFollowLines(o: OrderData)
    ensures var r := CreateOrderBody(o).purchaseUnits[0].items;
      && |r| == |o.items|
      && forall i :: 0 <= i < |r| ==>
           && r[i].name == o.items[i].name
           && r[i].category == "PHYSICAL_GOODS"
           && IntValue(r[i].quantity) == Some(o.items[i].quantity)
           && r[i].unitAmount.currencyCode == o.currency
           && Fixed2Value(r[i].unitAmount.value) == Some(o.items[i].unitAmount)
  {
    var r := CreateOrderBody(o).purchaseUnits[0].items;
    forall i | 0 <= i < |r|
      ensures IntValue(r[i].quantity) == Some(o.items[i].quantity)
      ensures Fixed2Value(r[i].unitAmount.value) == Some(o.items[i].unitAmount)
    {
      IntStringRoundTrip(o.items[i].quantity);
      Fixed2RoundTrip(o.items[i].unitAmount);
    }
  }

  // ------------------------------------------------------------ dispatch

  /** The parsed request JSON `{ action, orderData, orderId }`. */
  datatype Payload = Payload(action: Option<string>, orderData: Option<OrderData>, orderId: Option<string>)

  /** The request body: parsed JSON, or the message `req.json()` threw. */
  datatype RequestBody = Parsed(payload: Payload) | Unparsable(message: string)

  datatype Request = Request(httpMethod: string, body: RequestBody)

  /** The outcome of `getAccessToken`: a token, a non-OK answer (which it
      turns into a fixed error), or an exception from the fetch itself. */
  datatype AuthOutcome = Granted(token: string) | Refused | AuthThrew(message: string)

  /** A call to PayPal's API, with the bearer token it carries. */
  datatype RemoteCall =
    | TokenRequest
    | CreateRequest(token: string, body: OrderBody)
    | GetRequest(token: string, orderId: string)
    | CaptureRequest(token: string, orderId: string)

  /** PayPal's answer to a create, get or capture call: an order id and
      status, a non-OK answer with its response text, or an exception. */
  datatype RemoteResult = Accepted(id: string, status: string) | Rejected(errorText: string) | Threw(message: string)

  /** The JSON object a response carries; an absent field is not serialised. */
  datatype Reply = Reply(success: Option<bool>, error: Option<string>, orderId: Option<string>, status: Option<string>)

  /** An HTTP response: its status and, except for the CORS preflight, a JSON body. */
  datatype Response = Response(httpStatus: int, body: Option<Reply>)

  /** The response and the calls made to produce it, in order. */
  datatype Served = Served(response: Response, calls: seq<RemoteCall>)

  const OrderDataRequired := "Order data is required for create action"
  const GetIdRequired := "Order ID is required for get action"
  const CaptureIdRequired := "Order ID is required for capture action"
  const AuthFailed := "Failed to authenticate with PayPal"

  function ErrorReply(message: string): Reply {
    Reply(Some(false), Some(message), None, None)
  }

  /** How a template literal renders the action; a missing one reads "undefined". */
  function ActionText(action: Option<string>): string {
    if action.Some? then action.value else "undefined"
  }

  /** The error text a failed PayPal call surfaces: the response text, or the
      call's fixed fallback when that text is empty, or the exception message. */
  function FailureText(r: RemoteResult, fallback: string): string
    requires !r.Accepted?
  {
    match r
    case Rejected(text) => if text == "" then fallback else text
    case Threw(message) => message
  }

  /** A reply and the PayPal order calls made to produce it. */
  datatype Dispatched = Dispatched(reply: Reply, calls: seq<RemoteCall>)

  /** The chain of `if (action === ...)` branches, once a token is held. */
  function Dispatch(p: Payload, token: string, remote: RemoteCall -> RemoteResult): Dispatched
  {
    if p.action == Some("create") then
      if p.orderData.None? then Dispatched(ErrorReply(OrderDataRequired), [])
      else
        var call := CreateRequest(token, CreateOrderBody(p.orderData.value));
        var r := remote(call);
        if r.Accepted? then Dispatched(Reply(None, None, Some(r.id), Some(r.status)), [call])
        else Dispatched(ErrorReply(FailureText(r, "Failed to create PayPal order")), [call])
    else if p.action == Some("get") then
      if !Truthy(p.orderId) then Dispatched(ErrorReply(GetIdRequired), [])
      else
        var call := GetRequest(token, p.orderId.value);
        var r := remote(call);
        if r.Accepted? then Dispatched(Reply(Some(true), None, Some(r.id), Some(r.status)), [call])
        else Dispatched(ErrorReply(FailureText(r, "Failed to get PayPal order")), [call])
    else if p.action == Some("capture") then
      if !Truthy(p.orderId) then Dispatched(ErrorReply(CaptureIdRequired), [])
      else
        var call := CaptureRequest(token, p.orderId.value);
        var r := remote(call);
        if r.Accepted? then Dispatched(Reply(Some(r.status == "COMPLETED"), None, Some(r.id), Some(r.status)), [call])
        else Dispatched(ErrorReply(FailureText(r, "Failed to capture PayPal order")), [call])
    else Dispatched(ErrorReply("Unknown action: " + ActionText(p.action)), [])
  }

  /** The `serve` handler. Every response has HTTP status 200; only the CORS
      preflight has no JSON body; the token is requested before any other
      call and at most one PayPal order call follows it. */
  function Serve(req: Request, auth: AuthOutcome, remote: RemoteCall -> RemoteResult): (out: Served)
    ensures out.response.httpStatus == 200
    ensures out.response.body.None? <==> req.httpMethod == "OPTIONS"
    ensures |out.calls| <= 2
    ensures out.calls != [] ==> out.calls[0] == TokenRequest
    ensures forall i :: 1 <= i < |out.calls| ==> !out.calls[i].TokenRequest? && auth.Granted? && out.calls[i].token == auth.token
  {
    if req.httpMethod == "OPTIONS" then Served(Response(200, None), [])
    else match req.body
      case Unparsable(message) => Served(Response(200, Some(ErrorReply(message))), [])
      case Parsed(p) =>
        match auth
        case Refused => Served(Response(200, Some(ErrorReply(AuthFailed))), [TokenRequest])
        case AuthThrew(message) => Served(Response(200, Some(ErrorReply(message))), [TokenRequest])
        case Granted(token) =>
          var d := Dispatch(p, token, remote);
          Served(Response(200, Some(d.reply)), [TokenRequest] + d.calls)
  }

  /** The reply of a served POST request. */
  function ReplyOf(req: Request, auth: AuthOutcome, remote: RemoteCall -> RemoteResult): Reply
    requires req.httpMethod != "OPTIONS"
  {
    Serve(req, auth, remote).response.body.value
  }

  // ------------------------------------------------------------ properties

  /** `create` without order data is refused with a fixed message and no
      order is created. */
  lemma CreateNeedsOrderData(p: Payload, token: string, remote: RemoteCall -> RemoteResult)
    requires p.action == Some("create") && p.orderData.None?
    ensures var req := Request("POST", Parsed(p));
      && ReplyOf(req, Granted(token), remote) == ErrorReply(OrderDataRequired)
      && Serve(req, Granted(token), remote).calls == [TokenRequest]
  {
  }

  /** `get` and `capture` without a (non-empty) order id are refused with the
      action's own message and PayPal is not called for them. */
  lemma OrderIdRequired(p: Payload, token: string, remote: RemoteCall -> RemoteResult)
    requires p.action == Some("get") || p.action == Some("capture")
    requires !Truthy(p.orderId)
    ensures var req := Request("POST", Parsed(p));
      && ReplyOf(req, Granted(token), remote) ==
           ErrorReply(if p.action == Some("get") then GetIdRequired else CaptureIdRequired)
      && Serve(req, Granted(token), remote).calls == [TokenRequest]
  {
  }

  /** A capture reply reports success exactly when PayPal captured the order
      and gave its status as COMPLETED; the captured order is the one asked for. */
  lemma CaptureSucceedsIffCompleted(id: string, token: string, remote: RemoteCall -> RemoteResult)
    requires id != ""
    ensures var req := Request("POST", Parsed(Payload(Some("capture"), None, Some(id))));
      var call := CaptureRequest(token, id);
      && Serve(req, Granted(token), remote).calls == [TokenRequest, call]
      && (ReplyOf(req, Granted(token), remote).success == Some(true) <==>
            remote(call).Accepted? && remote(call).status == "COMPLETED")
  {
  }

  /** A `get` with an order id looks that order up and reports it: PayPal's
      id and status with `success: true` when PayPal answered, and otherwise
      the failure text, "Failed to get PayPal order" when that text is empty. */
  lemma GetReportsOrder(id: string, token: string, remote: RemoteCall -> RemoteResult)
    requires id != ""
    ensures var req := Request("POST", Parsed(Payload(Some("get"), None, Some(id))));
      var call := GetRequest(token, id);
      var r := remote(call);
      && Serve(req, Granted(token), remote).calls == [TokenRequest, call]
      && ReplyOf(req, Granted(token), remote) ==
           if r.Accepted? then Reply(Some(true), None, Some(r.id), Some(r.status))
           else ErrorReply(FailureText(r, "Failed to get PayPal order"))
  {
  }

  /** The only reply without a `success` field is that of a created order,
      and it carries the order id and status PayPal returned. */
  lemma OnlyCreatedOrdersLackSuccess(req: Request, auth: AuthOutcome, remote: RemoteCall -> RemoteResult)
    requires req.httpMethod != "OPTIONS"
    ensures var reply := ReplyOf(req, auth, remote);
      reply.success.None? <==>
        && req.body.Parsed? && auth.Granted?
        && req.body.payload.action == Some("create") && req.body.payload.orderData.Some?
        && remote(CreateRequest(auth.token, CreateOrderBody(req.body.payload.orderData.value))).Accepted?
    ensures var reply := ReplyOf(req, auth, remote);
      reply.success.None? ==>
        var r := remote(CreateRequest(auth.token, CreateOrderBody(req.body.payload.orderData.value)));
        reply == Reply(None, None, Some(r.id), Some(r.status))
  {
  }

  /** Every reply with `success: false` carries an error message, and every
      error message comes with `success: false`. */
  lemma ErrorsComeWithFailure(req: Request, auth: AuthOutcome, remote: RemoteCall -> RemoteResult)
    requires req.httpMethod != "OPTIONS"
    ensures var reply := ReplyOf(req, auth, remote);
      (reply.success == Some(false) && reply.orderId.None?) <==> reply.error.Some?
  {
  }

  /** Any other action is refused with an error naming it, without calling PayPal. */
  lemma UnknownActionNamed(p: Payload, token: string, remote: RemoteCall -> RemoteResult)
    requires p.action != Some("create") && p.action != Some("get") && p.action != Some("capture")
    ensures var req := Request("POST", Parsed(p));
      && ReplyOf(req, Granted(token), remote) == ErrorReply("Unknown action: " + ActionText(p.action))
      && Serve(req, Granted(token), remote).calls == [TokenRequest]
  {
  }

  /** The token is fetched before dispatch, so when it cannot be had every
      action, known or not, gets an error reply and no order call is made. */
  lemma AuthFailureFailsEveryAction(p: Payload, auth: AuthOutcome, remote: RemoteCall -> RemoteResult)
    requires !auth.Granted?
    ensures var req := Request("POST", Parsed(p));
      && ReplyOf(req, auth, remote) == ErrorReply(if auth.Refused? then AuthFailed else auth.message)
      && Serve(req, auth, remote).calls == [TokenRequest]
  {
  }
}
