/** The checkout's PayPal button (src/components/checkout/PayPalButton.tsx):
    it builds the order request from the cart, asks the `paypal` edge function
    to create and later capture the order, and reports the outcome through
    the `onSuccess` and `onError` callbacks it was given.

    `supabase.functions.invoke` is abstract: its outcome is an
    `InvokeResult`, and `Delivered` says which outcome a served response
    produces. The component's state is a class; the calls it makes to the
    backend and to its two callbacks are recorded in sequences. */
module PayPalButtonFlow {
  import opened Common
  import opened JsText
  import opened Cart
  import opened PayPalFunction

  // ------------------------------------------------------------ order request

  /** The props the button's callbacks read. */
  datatype ButtonConfig = ButtonConfig(items: seq<CartItem>, totalAmount: int, shippingCost: int)

  /** The `orderData` the button sends: the total plus shipping, in GBP, one
      line per cart line in cart order, and no return or cancel URL. */
  function OrderRequest(c: ButtonConfig): (o: OrderData)
    ensures o.amount == c.totalAmount + c.shippingCost && o.currency == "GBP"
    ensures o.returnUrl.None? && o.cancelUrl.None?
    ensures |o.items| == |c.items|
    ensures forall i :: 0 <= i < |c.items| ==>
      o.items[i].name == c.items[i].name && o.items[i].quantity == c.items[i].quantity && o.items[i].unitAmount == c.items[i].price
  {
    OrderData(
      c.totalAmount + c.shippingCost, "GBP",
      seq(|c.items|, i requires 0 <= i < |c.items| => LineItem(c.items[i].name, c.items[i].quantity, c.items[i].price)),
      None, None)
  }

  function CreatePayload(c: ButtonConfig): Payload {
    Payload(Some("create"), Some(OrderRequest(c)), None)
  }

  function CapturePayload(orderID: string): Payload {
    Payload(Some("capture"), None, Some(orderID))
  }

  /** The item total the backend computes from the request is the cart's
      sum of line prices. */
  lemma {:induction false} RequestTotalIsCartTotal(c: ButtonConfig)
    ensures ItemTotal(OrderRequest(c).items) == LinesTotal(c.items)
    decreases |c.items|
  {
    if c.items != [] {
      var n := |c.items|;
      var shorter := ButtonConfig(c.items[..n - 1], c.totalAmount, c.shippingCost);
      assert OrderRequest(c).items[..n - 1] == OrderRequest(shorter).items;
      RequestTotalIsCartTotal(shorter);
    }
  }

  /** When the total passed in is the cart's sum of line prices, PayPal is
      asked for that total plus shipping, and the breakdown's shipping is
      exactly the shipping cost the checkout charged: both are printed with
      `toFixed(2)` from those amounts, so `Fixed2RoundTrip` reads them back. */
  lemma ShippingReachesPayPal(c: ButtonConfig)
    requires c.totalAmount == LinesTotal(c.items)
    ensures var u := CreateOrderBody(OrderRequest(c)).purchaseUnits[0];
      && u.amount.value == Fixed2(c.totalAmount + c.shippingCost)
      && u.amount.breakdown.shipping.value == Fixed2(c.shippingCost)
      && u.amount.currencyCode == "GBP"
  {
    var o := OrderRequest(c);
    RequestTotalIsCartTotal(c);
    assert o.amount - ItemTotal(o.items) == c.shippingCost;
    AmountFigures(o);
  }

  /** For a cart of non-negative lines whose total is passed in, the
      breakdown the backend builds is consistent: the item total is
      non-negative, no more than the amount, at least every line's price,
      and what remains of the amount is the shipping cost. */
  lemma BreakdownWithinAmount(c: ButtonConfig)
    requires forall i :: 0 <= i < |c.items| ==> c.items[i].price >= 0 && c.items[i].quantity >= 0
    requires c.totalAmount == LinesTotal(c.items) && c.shippingCost >= 0
    ensures var o := OrderRequest(c);
      && 0 <= ItemTotal(o.items) <= o.amount
      && o.amount - ItemTotal(o.items) == c.shippingCost
      && forall i :: 0 <= i < |c.items| ==> LinePrice(c.items[i]) <= ItemTotal(o.items)
  {
    RequestTotalIsCartTotal(c);
    LinesTotalBounds(c.items);
  }

  /** A cart of one line at £100.00 with £5.00 shipping asks PayPal for
      "105.00", of which "5.00" is shipping. */
  lemma ShippingExample()
    ensures var c := ButtonConfig([CartItem("chair", "Chair", "Sedona", 10000, 1, "")], 10000, 500);
      var u := CreateOrderBody(OrderRequest(c)).purchaseUnits[0];
      && u.amount.value == "105.00"
      && u.amount.breakdown.shipping.value == "5.00"
  {
    var c := ButtonConfig([CartItem("chair", "Chair", "Sedona", 10000, 1, "")], 10000, 500);
    assert c.items[..0] == [];
    ShippingReachesPayPal(c);
    assert NatString(105) == NatString(10) + "5" == "105";
    assert Fixed2(10500) == "105.00" && Fixed2(500) == "5.00";
  }

  // ------------------------------------------------------------ invoke outcomes

  /** What `supabase.functions.invoke` resolves to: the response's JSON body
      as `data`, or an `error` with a message. */
  datatype InvokeResult = Invoked(data: Option<Reply>) | InvokeFailed(message: string)

  const NonSuccessStatus := "Edge Function returned a non-2xx status code"

  /** The invoke outcome of a response the function served: a non-2xx status
      becomes an error, any other response hands over its body. */
  function Delivered(r: Response): (d: InvokeResult)
    ensures d.InvokeFailed? <==> !(200 <= r.httpStatus < 300)
    ensures d.Invoked? ==> d.data == r.body
  {
    if 200 <= r.httpStatus < 300 then Invoked(r.body) else InvokeFailed(NonSuccessStatus)
  }

  /** What `createOrder` does with the invoke outcome: the order id to hand
      to the SDK, or the message it reports and rethrows. */
  function CreateOutcome(d: InvokeResult): (r: Result<string, string>)
    ensures r.Ok? <==> d.Invoked? && d.data.Some? && Truthy(d.data.value.orderId)
    ensures r.Ok? ==> r.value == d.data.value.orderId.value
    ensures r.Err? ==> r.error == if d.InvokeFailed? then d.message else "No order ID returned"
  {
    match d
    case InvokeFailed(message) => Err(message)
    case Invoked(data) =>
      if data.Some? && Truthy(data.value.orderId) then Ok(data.value.orderId.value)
      else Err("No order ID returned")
  }

  /** What `onApprove` does with the capture outcome: the order id passed to
      `onSuccess` when `success` is true, or the message passed to `onError`. */
  function CaptureOutcome(d: InvokeResult): (r: Result<Option<string>, string>)
    ensures r.Ok? <==> d.Invoked? && d.data.Some? && d.data.value.success == Some(true)
    ensures r.Ok? ==> r.value == d.data.value.orderId
    ensures r.Err? ==> r.error == if d.InvokeFailed? then d.message else "Payment capture failed"
  {
    match d
    case InvokeFailed(message) => Err(message)
    case Invoked(data) =>
      if data.Some? && data.value.success == Some(true) then Ok(data.value.orderId)
      else Err("Payment capture failed")
  }

  /** Every response of the edge function reaches the button as data, never
      as an invoke error, because the function always answers 200. */
  lemma ServedResponsesAreData(req: Request, auth: AuthOutcome, remote: RemoteCall -> RemoteResult)
    ensures Delivered(Serve(req, auth, remote).response) == Invoked(Serve(req, auth, remote).response.body)
  {
  }

  /** The button obtains an order id exactly when PayPal created the order
      and returned a non-empty id; every backend failure, including a failed
      login, reaches it as a reply without an order id, so it reports
      "No order ID returned". */
  lemma CreateOrderEndToEnd(c: ButtonConfig, auth: AuthOutcome, remote: RemoteCall -> RemoteResult)
    ensures var out := Serve(Request("POST", Parsed(CreatePayload(c))), auth, remote);
      var r := CreateOutcome(Delivered(out.response));
      && (r.Ok? <==>
            auth.Granted? && remote(CreateRequest(auth.token, CreateOrderBody(OrderRequest(c)))).Accepted?
            && remote(CreateRequest(auth.token, CreateOrderBody(OrderRequest(c)))).id != "")
      && (r.Ok? ==> r.value == remote(CreateRequest(auth.token, CreateOrderBody(OrderRequest(c)))).id)
      && (r.Err? ==> r.error == "No order ID returned")
  {
  }

  /** The approved order is the one captured, and `onSuccess` is reached
      exactly when PayPal captured it with status COMPLETED. */
  lemma CaptureEndToEnd(orderID: string, auth: AuthOutcome, remote: RemoteCall -> RemoteResult)
    ensures var out := Serve(Request("POST", Parsed(CapturePayload(orderID))), auth, remote);
      var r := CaptureOutcome(Delivered(out.response));
      && (out.calls != [TokenRequest] ==> out.calls == [TokenRequest, CaptureRequest(auth.token, orderID)])
      && (r.Ok? <==>
            auth.Granted? && orderID != ""
            && remote(CaptureRequest(auth.token, orderID)).Accepted?
            && remote(CaptureRequest(auth.token, orderID)).status == "COMPLETED")
      && (r.Ok? ==> r.value == Some(remote(CaptureRequest(auth.token, orderID)).id))
  {
  }

  // ------------------------------------------------------------ component

  /** How the SDK script effect ends: a script was already on the page, the
      injected script loaded, or it failed to load. */
  datatype SdkLoad = ScriptAlreadyPresent | ScriptLoaded | ScriptFailed

  /** What the component renders. */
  datatype ButtonView = Spinner | NotConfigured | Container(dimmed: bool)

  const SdkErrorMessage := "PayPal encountered an error"

  class PayPalButton {
    /** Whether VITE_PAYPAL_CLIENT_ID is set. */
    const clientIdConfigured: bool
    var props: ButtonConfig
    var disabled: bool
    var isLoading: bool
    var sdkReady: bool
    /** The buttons in the container, with the props their callbacks captured
        when they were rendered; `None` while the container is empty. */
    var mounted: Option<ButtonConfig>
    /** Bodies sent to the edge function, in order. */
    var requests: seq<Payload>
    /** Arguments of the `onSuccess` calls, in order. */
    var successes: seq<Option<string>>
    /** Arguments of the `onError` calls, in order. */
    var reportedErrors: seq<string>

    constructor(clientIdConfigured: bool, props: ButtonConfig, disabled: bool)
      ensures this.clientIdConfigured == clientIdConfigured && this.props == props && this.disabled == disabled
      ensures isLoading && !sdkReady && mounted.None?
      ensures requests == [] && successes == [] && reportedErrors == []
    {
      this.clientIdConfigured := clientIdConfigured;
      this.props := props;
      this.disabled := disabled;
      isLoading := true;
      sdkReady := false;
      mounted := None;
      requests := [];
      successes := [];
      reportedErrors := [];
    }

    /** The spinner while loading, then the missing-configuration notice, then
        the container, dimmed while the button is disabled. */
    function View(): (v: ButtonView)
      reads this
      ensures v.Spinner? <==> isLoading
      ensures v.NotConfigured? <==> !isLoading && !clientIdConfigured
      ensures v.Container? ==> v.dimmed == disabled
    {
      if isLoading then Spinner
      else if !clientIdConfigured then NotConfigured
      else Container(disabled)
    }

    /** The SDK-loading effect to its end: without a client id loading just
        stops; otherwise the SDK is ready unless the script failed to load. */
    method LoadSdk(load: SdkLoad)
      modifies this
      ensures !isLoading
      ensures sdkReady == if clientIdConfigured && load != ScriptFailed then true else old(sdkReady)
      ensures props == old(props) && disabled == old(disabled) && mounted == old(mounted)
      ensures requests == old(requests) && successes == old(successes) && reportedErrors == old(reportedErrors)
    {
      if !clientIdConfigured {
        isLoading := false;
        return;
      }
      if load == ScriptAlreadyPresent {
        sdkReady := true;
        isLoading := false;
        return;
      }
      if load == ScriptLoaded {
        sdkReady := true;
      }
      isLoading := false;
    }

    /** A re-render with new props. */
    method SetProps(props: ButtonConfig, disabled: bool)
      modifies this
      ensures this.props == props && this.disabled == disabled
      ensures isLoading == old(isLoading) && sdkReady == old(sdkReady) && mounted == old(mounted)
      ensures requests == old(requests) && successes == old(successes) && reportedErrors == old(reportedErrors)
    {
      this.props := props;
      this.disabled := disabled;
    }

    /** The render effect: unless the SDK is not ready, `window.paypal` is
        missing or the button is disabled, the container is cleared and one
        set of buttons is rendered with the current props; otherwise nothing
        changes, and buttons already rendered stay. */
    method RenderButtons(paypalAvailable: bool)
      modifies this
      ensures mounted == if sdkReady && paypalAvailable && !disabled then Some(props) else old(mounted)
      ensures props == old(props) && disabled == old(disabled) && isLoading == old(isLoading) && sdkReady == old(sdkReady)
      ensures requests == old(requests) && successes == old(successes) && reportedErrors == old(reportedErrors)
    {
      if !sdkReady || !paypalAvailable || disabled {
        return;
      }
      mounted := None;
      mounted := Some(props);
    }

    /** The buttons' `createOrder`: sends the create request built from the
        props the buttons captured and returns the order id, or reports the
        failure to `onError` before rethrowing it. */
    method CreateOrder(d: InvokeResult) returns (r: Result<string, string>)
      requires mounted.Some?
      modifies this
      ensures props == old(props) && disabled == old(disabled) && mounted == old(mounted)
      ensures requests == old(requests) + [CreatePayload(mounted.value)]
      ensures r == CreateOutcome(d)
      ensures reportedErrors == old(reportedErrors) + (if r.Err? then [r.error] else [])
      ensures successes == old(successes)
      ensures isLoading == old(isLoading) && sdkReady == old(sdkReady)
    {
      requests := requests + [CreatePayload(mounted.value)];
      r := CreateOutcome(d);
      if r.Err? {
        reportedErrors := reportedErrors + [r.error];
      }
    }

    /** The buttons' `onApprove`: captures the approved order, then calls
        `onSuccess` with the captured order id, or `onError`, never both. */
    method Approve(orderID: string, d: InvokeResult)
      requires mounted.Some?
      modifies this
      ensures requests == old(requests) + [CapturePayload(orderID)]
      ensures CaptureOutcome(d).Ok? ==>
        successes == old(successes) + [CaptureOutcome(d).value] && reportedErrors == old(reportedErrors)
      ensures CaptureOutcome(d).Err? ==>
        successes == old(successes) && reportedErrors == old(reportedErrors) + [CaptureOutcome(d).error]
      ensures props == old(props) && disabled == old(disabled) && mounted == old(mounted)
      ensures isLoading == old(isLoading) && sdkReady == old(sdkReady)
    {
      requests := requests + [CapturePayload(orderID)];
      var outcome := CaptureOutcome(d);
      if outcome.Ok? {
        successes := successes + [outcome.value];
      } else {
        reportedErrors := reportedErrors + [outcome.error];
      }
    }

    /** The buttons' `onError`: always the same message, whatever the SDK reported. */
    method SdkError()
      requires mounted.Some?
      modifies this
      ensures reportedErrors == old(reportedErrors) + [SdkErrorMessage]
      ensures requests == old(requests) && successes == old(successes)
      ensures props == old(props) && disabled == old(disabled) && mounted == old(mounted)
      ensures isLoading == old(isLoading) && sdkReady == old(sdkReady)
    {
      reportedErrors := reportedErrors + [SdkErrorMessage];
    }

    /** The buttons' `onCancel`: only logs, so no state and no callback changes. */
    method Cancel()
      requires mounted.Some?
      ensures unchanged(this)
    {
    }
  }
}
