/**
 The server endpoint that turns a booking's confirmed total into a payment
 intent: it validates the request body, rejects non-POST methods, asks the
 payment processor for a tax calculation and then for a payment intent sized
 in cents, and answers with the intent's client secret or an error. The two
 processor calls are abstract outcomes passed in by the caller: each either
 returns a value or throws an error carrying a message.
 */
module PaymentIntent {

  datatype Option<T> = None | Some(value: T)

  /** What a processor call did: returned a value or threw an error. */
  datatype Outcome<T> = Returned(value: T) | Threw(message: string)

  /** One entry of the request's `items` array. */
  datatype Item = Item(amount: int, id: string)

  /** A tax-calculation line item: amount in cents and a reference. */
  datatype LineItem = LineItem(amount: int, reference: string)

  datatype TaxCalculation = TaxCalculation(id: string, taxAmountExclusive: int)

  datatype PaymentIntentObject = PaymentIntentObject(clientSecret: string)

  /** The `items` field of a request body: any falsy value (absent, null,
      false, 0, ""), an array of items, or a truthy value that is not an
      array (which has no `map`). */
  datatype ItemsField = Falsy | ItemArray(items: seq<Item>) | TruthyNonArray

  /** The parsed request body: JSON `null`, or an object whose `items` and
      `totalPrice` are read (a `totalPrice` of None is `undefined`). */
  datatype RequestBody = NullBody | Fields(items: ItemsField, totalPrice: Option<real>)

  datatype Request = Request(httpMethod: string, body: RequestBody)

  /** A request made to the payment processor. */
  datatype GatewayCall =
    | TaxCalculationCreate(currency: string, lineItems: seq<LineItem>)
    | PaymentIntentCreate(amount: real, currency: string, taxCalculationId: string)

  datatype JsonBody = ErrorJson(error: string) | SecretJson(clientSecret: string)

  datatype Payload = NoPayload | Json(json: JsonBody) | Text(text: string)

  const InvalidRequestData: string := "Invalid request data"
  const MethodNotAllowed: string := "Method Not Allowed"
  /** The message of the TypeError raised by calling `map` on a non-array. */
  const ItemsMapNotAFunction: string := "items.map is not a function"
  /** The message of the TypeError raised by destructuring a `null` body. */
  const DestructureNullBody: string := "Cannot destructure property 'items' of 'req.body' as it is null."
  const BaseOrderAmount: int := 1400

  // ---------------------------------------------------------------------
  // Pure data shaping.
  // ---------------------------------------------------------------------

  /** `buildLineItem`: the item's amount, and its id as the reference. */
  function BuildLineItem(item: Item): (lineItem: LineItem)
    ensures lineItem.amount == item.amount && lineItem.reference == item.id
  {
    LineItem(item.amount, item.id)
  }

  /** `items.map(buildLineItem)`: one line item per item, in the same
      order, carrying the item's amount and its id as the reference. */
  function BuildLineItems(items: seq<Item>): (lineItems: seq<LineItem>)
    ensures |lineItems| == |items|
    ensures forall i :: 0 <= i < |items| ==>
      lineItems[i].amount == items[i].amount && lineItems[i].reference == items[i].id
  {
    if items == [] then []
    else [BuildLineItem(items[0])] + BuildLineItems(items[1..])
  }

  /** Dollars to cents: the amount in cents is a hundred times the total,
      positive exactly when the total is. */
  function ToCents(totalPrice: real): (amount: real)
    ensures amount / 100.0 == totalPrice
    ensures amount > 0.0 <==> totalPrice > 0.0
  {
    totalPrice * 100.0
  }

  /** The server-side order amount: a fixed 1400 plus the exclusive tax,
      whatever the items are. */
  method CalculateOrderAmount(items: seq<Item>, taxCalculation: TaxCalculation) returns (orderAmount: int)
    ensures orderAmount - taxCalculation.taxAmountExclusive == BaseOrderAmount
  {
    orderAmount := 1400;
    orderAmount := orderAmount + taxCalculation.taxAmountExclusive;
  }

  // ---------------------------------------------------------------------
  // The response object the framework hands to the handler.
  // ---------------------------------------------------------------------

  class ServerResponse {
    var statusCode: int
    var headers: map<string, string>
    var payload: Payload
    var ended: bool

    /** A response not yet written: status 200, no headers, no body. */
    constructor ()
      ensures statusCode == 200 && headers == map[] && payload == NoPayload && !ended
    {
      statusCode := 200;
      headers := map[];
      payload := NoPayload;
      ended := false;
    }

    /** `res.status(code)`: sets the status code only. */
    method Status(code: int)
      requires !ended
      modifies this
      ensures statusCode == code
      ensures headers == old(headers) && payload == old(payload) && ended == old(ended)
    {
      statusCode := code;
    }

    /** `res.json(body)`: sends a JSON body and ends the response. */
    method SendJson(body: JsonBody)
      requires !ended
      modifies this
      ensures payload == Json(body) && ended
      ensures statusCode == old(statusCode) && headers == old(headers)
    {
      payload := Json(body);
      ended := true;
    }

    /** `res.send(text)`: sends a text body and ends the response. */
    method SendText(text: string)
      requires !ended
      modifies this
      ensures payload == Text(text) && ended
      ensures statusCode == old(statusCode) && headers == old(headers)
    {
      payload := Text(text);
      ended := true;
    }
  }

  // ---------------------------------------------------------------------
  // The handler.
  // ---------------------------------------------------------------------

  /** Both fields the handler insists on: truthy `items` and a defined
      `totalPrice`. */
  predicate HasRequiredFields(body: RequestBody)
  {
    body.Fields? && !body.items.Falsy? && body.totalPrice.Some?
  }

  /** The request reaches the processor: required fields present and the
      method is POST. */
  predicate Accepted(req: Request)
  {
    HasRequiredFields(req.body) && req.httpMethod == "POST"
  }

  /** Every step of the try block went through. */
  predicate Succeeds(req: Request, tax: Outcome<TaxCalculation>, intent: Outcome<PaymentIntentObject>)
  {
    Accepted(req) && req.body.items.ItemArray? && tax.Returned? && intent.Returned?
  }

  /** Handles one request. `tax` and `intent` are what the processor's
      tax-calculation and payment-intent calls do if they are made;
      `calls` lists the processor requests actually made, in order;
      `uncaught` is the error that escapes the handler, if any.
      A `null` body throws while it is destructured, outside the try, so
      the handler writes nothing. Otherwise validation of the body comes
      before the method check, every response is written exactly once,
      and no header is ever set. */
  method Handler(req: Request, res: ServerResponse, tax: Outcome<TaxCalculation>, intent: Outcome<PaymentIntentObject>)
    returns (calls: seq<GatewayCall>, uncaught: Option<string>)
    requires res.statusCode == 200 && res.payload == NoPayload && !res.ended
    modifies res
    ensures res.headers == old(res.headers)
    // null body: the destructuring TypeError escapes, nothing is written or called
    ensures req.body.NullBody? ==>
      uncaught == Some(DestructureNullBody) && !res.ended && res.statusCode == 200
      && res.payload == NoPayload && calls == []
    ensures req.body.Fields? ==> uncaught == None && res.ended
    // malformed body: 400 whatever the method, no processor call
    ensures req.body.Fields? && !HasRequiredFields(req.body) ==>
      res.statusCode == 400 && res.payload == Json(ErrorJson(InvalidRequestData)) && calls == []
    // well-formed body, wrong method: 405 as text, no processor call
    ensures HasRequiredFields(req.body) && req.httpMethod != "POST" ==>
      res.statusCode == 405 && res.payload == Text(MethodNotAllowed) && calls == []
    // items that are not an array: the TypeError from items.map, before any call
    ensures Accepted(req) && req.body.items.TruthyNonArray? ==>
      res.statusCode == 500 && res.payload == Json(ErrorJson(ItemsMapNotAFunction)) && calls == []
    // an array of items: the tax calculation is asked for first
    ensures Accepted(req) && req.body.items.ItemArray? ==>
      1 <= |calls| <= 2
      && calls[0] == TaxCalculationCreate("eur", BuildLineItems(req.body.items.items))
    ensures Accepted(req) && req.body.items.ItemArray? && tax.Threw? ==>
      |calls| == 1 && res.statusCode == 500 && res.payload == Json(ErrorJson(tax.message))
    // after the tax calculation: an intent of totalPrice in cents, in usd
    ensures Accepted(req) && req.body.items.ItemArray? && tax.Returned? ==>
      calls == [TaxCalculationCreate("eur", BuildLineItems(req.body.items.items)),
                PaymentIntentCreate(ToCents(req.body.totalPrice.value), "usd", tax.value.id)]
    ensures Accepted(req) && req.body.items.ItemArray? && tax.Returned? && intent.Threw? ==>
      res.statusCode == 500 && res.payload == Json(ErrorJson(intent.message))
    // success: status 200 and only the client secret
    ensures Succeeds(req, tax, intent) ==>
      res.statusCode == 200 && res.payload == Json(SecretJson(intent.value.clientSecret))
    // a client secret comes back only on success
    ensures res.payload.Json? && res.payload.json.SecretJson? <==> Succeeds(req, tax, intent)
    ensures res.ended && res.statusCode == 200 <==> Succeeds(req, tax, intent)
  {
    calls, uncaught := [], None;
    if req.body.NullBody? {
      uncaught := Some(DestructureNullBody);
      return;
    }
    var items := req.body.items;
    var totalPrice := req.body.totalPrice;

    if items.Falsy? || totalPrice.None? {
      res.Status(400);
      res.SendJson(ErrorJson(InvalidRequestData));
      return;
    }

    if req.httpMethod != "POST" {
      res.Status(405);
      res.SendText(MethodNotAllowed);
      return;
    }

    // try
    var thrown: Option<string> := None;
    if items.TruthyNonArray? {
      thrown := Some(ItemsMapNotAFunction);
    } else {
      calls := calls + [TaxCalculationCreate("eur", BuildLineItems(items.items))];
      match tax
      case Threw(message) =>
        thrown := Some(message);
      case Returned(taxCalculation) =>
        var amount := ToCents(totalPrice.value);
        calls := calls + [PaymentIntentCreate(amount, "usd", taxCalculation.id)];
        match intent
        case Threw(message) =>
          thrown := Some(message);
        case Returned(paymentIntent) =>
          res.SendJson(SecretJson(paymentIntent.clientSecret));
    }

    // catch
    if thrown.Some? {
      res.Status(500);
      res.SendJson(ErrorJson(thrown.value));
    }
  }
}
