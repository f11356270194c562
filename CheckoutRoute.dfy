/**
 * The checkout endpoint: it turns the cart's items into the payment
 * provider's line items and asks the provider for a hosted checkout session.
 * The provider call is a parameter; the outcome records every session
 * request the endpoint issued, so "no session is created" can be stated.
 */
module CheckoutRoute {
  import opened Wrappers
  import opened Seqs

  /** An item as posted by the cart page. */
  datatype StripeItem = StripeItem(brand: string, model: string, price: real)

  /** One entry of `line_items`: `price_data` flattened, plus the quantity. */
  datatype LineItem = LineItem(currency: string, productName: string, unitAmount: int, quantity: nat)

  /** The arguments passed to the provider's session creation. */
  datatype SessionParams = SessionParams(
    paymentMethodTypes: seq<string>,
    lineItems: seq<LineItem>,
    mode: string,
    successUrl: string,
    cancelUrl: string)

  /** The JSON body of a response: the session's (possibly null) url, or an error text. */
  datatype Body = UrlBody(url: Option<string>) | ErrorBody(error: string)

  datatype Response = Response(status: int, body: Body)

  /** What the endpoint answered and which session requests it sent out. */
  datatype Outcome = Outcome(response: Response, requests: seq<SessionParams>)

  const MissingKeyError := "Stripe API key is not configured"
  const FallbackError := "Internal Server Error"

  /** `!process.env.STRIPE_SECRET_KEY`: an unset and an empty variable both count as missing. */
  predicate KeyMissing(secretKey: Option<string>)
  {
    secretKey.None? || secretKey.value == ""
  }

  /** `Math.round`: the nearest integer, halves rounded towards +infinity. */
  function RoundHalfUp(x: real): (r: int)
    ensures x - 0.5 < r as real <= x + 0.5
  {
    (x + 0.5).Floor
  }

  /** `Math.round(price * 100)`: the price in cents. */
  function UnitAmount(price: real): (cents: int)
    ensures price * 100.0 - 0.5 < cents as real <= price * 100.0 + 0.5
  {
    RoundHalfUp(price * 100.0)
  }

  /** A price already in whole cents is passed on exactly. */
  lemma WholeCentsExact(price: real, cents: int)
    requires price * 100.0 == cents as real
    ensures UnitAmount(price) == cents
  {
  }

  /** The line item built for one cart item. */
  function ToLineItem(item: StripeItem): (li: LineItem)
    ensures li.currency == "usd" && li.quantity == 1
    ensures li.productName == item.brand + " " + item.model
    ensures li.unitAmount == UnitAmount(item.price)
  {
    LineItem("usd", item.brand + " " + item.model, UnitAmount(item.price), 1)
  }

  /** `items.map(...)`: one line item per item, in the same order. */
  function LineItems(items: seq<StripeItem>): (r: seq<LineItem>)
    ensures |r| == |items|
    ensures forall k :: 0 <= k < |items| ==> r[k] == ToLineItem(items[k])
  {
    if items == [] then [] else LineItems(items[..|items| - 1]) + [ToLineItem(items[|items| - 1])]
  }

  /** A template-string interpolation of an unset variable renders "undefined". */
  function Interpolate(v: Option<string>): string
  {
    match v
    case None => "undefined"
    case Some(s) => s
  }

  /** The full session request for a list of items and the configured base url. */
  function SessionRequest(items: seq<StripeItem>, baseUrl: Option<string>): (p: SessionParams)
    ensures p.paymentMethodTypes == ["card"] && p.mode == "payment"
    ensures p.lineItems == LineItems(items)
    ensures p.successUrl == Interpolate(baseUrl) + "/success"
    ensures p.cancelUrl == Interpolate(baseUrl) + "/inventory"
  {
    SessionParams(["card"], LineItems(items), "payment",
                  Interpolate(baseUrl) + "/success", Interpolate(baseUrl) + "/inventory")
  }

  /** The catch branch's message: the error's own message, or the fixed fallback. */
  function ErrorText(e: Thrown): (t: string)
    ensures e.ErrorObject? ==> t == e.message
    ensures e.OtherValue? ==> t == FallbackError
  {
    match e
    case ErrorObject(m) => m
    case OtherValue => FallbackError
  }

  /**
   * `POST /api/checkout`. `payload` is the parsed request body (a failure
   * when `req.json()` or reading `items` throws); `create` stands for the
   * provider's session creation, returning the session url or throwing.
   */
  function Post(secretKey: Option<string>, payload: Result<seq<StripeItem>, Thrown>,
                baseUrl: Option<string>, create: SessionParams -> Result<Option<string>, Thrown>): (o: Outcome)
    ensures KeyMissing(secretKey) ==> o == Outcome(Response(500, ErrorBody(MissingKeyError)), [])
    ensures !KeyMissing(secretKey) && payload.Failure? ==>
      o == Outcome(Response(500, ErrorBody(ErrorText(payload.error))), [])
    ensures !KeyMissing(secretKey) && payload.Success? ==>
      o.requests == [SessionRequest(payload.value, baseUrl)]
    ensures !KeyMissing(secretKey) && payload.Success? && create(SessionRequest(payload.value, baseUrl)).Success? ==>
      o.response == Response(200, UrlBody(create(SessionRequest(payload.value, baseUrl)).value))
    ensures !KeyMissing(secretKey) && payload.Success? && create(SessionRequest(payload.value, baseUrl)).Failure? ==>
      o.response == Response(500, ErrorBody(ErrorText(create(SessionRequest(payload.value, baseUrl)).error)))
    ensures o.response.status == 200 <==> o.response.body.UrlBody?
    ensures o.response.status != 200 ==> o.response.status == 500
  {
    if KeyMissing(secretKey) then
      Outcome(Response(500, ErrorBody(MissingKeyError)), [])
    else
      match payload
      case Failure(e) => Outcome(Response(500, ErrorBody(ErrorText(e))), [])
      case Success(items) =>
        var request := SessionRequest(items, baseUrl);
        match create(request)
        case Success(url) => Outcome(Response(200, UrlBody(url)), [request])
        case Failure(e) => Outcome(Response(500, ErrorBody(ErrorText(e))), [request])
  }

  /** The cents charged over all line items. */
  function ChargedCents(lines: seq<LineItem>): int
  {
    if lines == [] then 0 else ChargedCents(lines[..|lines| - 1]) + lines[|lines| - 1].unitAmount * lines[|lines| - 1].quantity
  }

  function ItemPrice(item: StripeItem): real { item.price }

  /**
   * Rounding each price separately keeps the charged amount within half a
   * cent per item of 100 times the cart's total.
   */
  lemma {:induction false} ChargedNearTotal(items: seq<StripeItem>)
    ensures 100.0 * SumOf(items, ItemPrice) - 0.5 * |items| as real
            <= ChargedCents(LineItems(items)) as real
    ensures ChargedCents(LineItems(items)) as real
            <= 100.0 * SumOf(items, ItemPrice) + 0.5 * |items| as real
  {
    if items != [] {
      var init := items[..|items| - 1];
      ChargedNearTotal(init);
      assert LineItems(items)[..|items| - 1] == LineItems(init);
    }
  }
}
