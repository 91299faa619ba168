/**
 * `POST /api/public/stripe/create-payment-intent`, behind `withAuth`: the buyer of an
 * order awaiting payment obtains a payment intent for it. An intent already recorded
 * for the order is fetched again; otherwise one is created for the order's total, with
 * the platform fee kept as the application fee and the rest routed to the seller's
 * connected account, and a pending payment row is inserted.
 *
 * The payment processor is a parameter (`Processor`): its answer to fetching an intent
 * by id and to creating one. `paymentId` is the id the store gives a new payment row,
 * and `accepted` whether it accepts the insert; the handler ignores the insert's result.
 */
module PaymentIntent {
  import opened Wrappers
  import opened Strings
  import opened Database
  import opened Store
  import opened Validation

  /** `createPaymentIntentSchema`: an object whose `order_id` is a UUID. */
  function ParseOrderRef(v: Value): (r: Parsed<string>)
    ensures r.Success? <==> v.Obj? && "order_id" in v.fields && v.fields["order_id"].Str? && IsUuid(v.fields["order_id"].s)
    ensures r.Success? ==> r.value == v.fields["order_id"].s
    ensures v.Obj? && "order_id" in v.fields && v.fields["order_id"].Str? && !IsUuid(v.fields["order_id"].s)
      ==> r == Failure(Custom("ID commande invalide"))
    ensures !r.Crashed?
  {
    if !v.Obj? then Failure(Standard(InvalidType))
    else Required(v.fields, "order_id", x => StringOf(x, OrderIdRule))
  }

  /** A payment intent as the processor returns it. */
  datatype Intent = Intent(id: string, clientSecret: Option<string>)

  /** What the handler asks the processor to create: amounts in cents, in euros, routed to the seller. */
  datatype IntentRequest = IntentRequest(
    amountCents: int,
    currency: string,
    applicationFeeCents: int,
    destination: string,
    orderId: string,
    buyerId: string,
    sellerId: string)

  /** The processor's answers: fetching an intent by id, creating one (`Err` when the call throws). */
  datatype Processor = Processor(retrieve: string -> Result<Intent>, create: IntentRequest -> Result<Intent>)

  /** The answer's status, the intent it carries, and the tables afterwards. */
  datatype IntentOutcome = IntentOutcome(status: nat, intent: Option<Intent>, tables: Tables)

  /** `Math.round(amount * 100)`: the nearest whole number of cents, halves rounded up. */
  function Cents(amount: real): (r: int)
    ensures -0.5 < r as real - amount * 100.0 <= 0.5
  {
    (amount * 100.0 + 0.5).Floor
  }

  /** An amount with a whole number of cents is converted exactly. */
  lemma CentsExact(amount: real, n: int)
    requires amount * 100.0 == n as real
    ensures Cents(amount) == n
  {
  }

  /** The intent requested for an order whose seller holds the connected account `destination`. */
  function RequestFor(order: Order, destination: string): (r: IntentRequest)
    ensures r.amountCents == Cents(order.totalAmount) && r.applicationFeeCents == Cents(order.platformFee)
    ensures r.currency == "eur" && r.destination == destination
    ensures r.orderId == order.id && r.buyerId == order.buyerId && r.sellerId == order.sellerId
  {
    IntentRequest(Cents(order.totalAmount), "eur", Cents(order.platformFee), destination, order.id, order.buyerId, order.sellerId)
  }

  /** The payment row recorded for a newly created intent. */
  function NewPaymentRow(id: string, order: Order, intent: Intent, defaults: ColumnDefaults): (r: Payment)
    ensures r.orderId == order.id && r.intentId == Some(intent.id) && r.status == PaymentPending
    ensures r.amount == order.totalAmount && r.platformFee == order.platformFee && r.sellerAmount == order.subtotal
    ensures r.currency == "EUR" && r.chargeId.None? && r.paidAt.None? && r.transferredAt.None? && r.transferId.None?
    ensures r.transferredToSeller == defaults.transferredToSeller
  {
    Payment(id, order.id, Some(intent.id), None, order.totalAmount, order.platformFee, order.subtotal, "EUR",
            PaymentPending, None, defaults.transferredToSeller, None, None)
  }

  /** The intent already recorded for the order: exactly one payment row for it, with a non-empty intent id. */
  function RecordedIntent(t: Tables, orderId: string): (r: Option<string>)
    ensures r.Some? <==> Single(t.payments, PaymentOfOrder(orderId)).Some? && Truthy(Single(t.payments, PaymentOfOrder(orderId)).value.intentId)
    ensures r.Some? ==> r.value != [] && Single(t.payments, PaymentOfOrder(orderId)).value.intentId == Some(r.value)
  {
    match Single(t.payments, PaymentOfOrder(orderId))
    case None => None
    case Some(p) => if Truthy(p.intentId) then p.intentId else None
  }

  /** The whole handler, once `withAuth` has identified the caller. */
  function CreatePaymentIntentOutcome(t: Tables, defaults: ColumnDefaults, caller: string, httpMethod: string, body: Value,
                                      stripe: Processor, paymentId: string, accepted: bool): IntentOutcome
  {
    if httpMethod != "POST" then IntentOutcome(405, None, t)
    else match ValidateBody(ParseOrderRef(body))
      case Invalid(_) => IntentOutcome(400, None, t)
      case Valid(orderId) =>
        match Single(t.orders, OrderIs(orderId))
        case None => IntentOutcome(404, None, t)
        case Some(order) =>
          if order.buyerId != caller then IntentOutcome(403, None, t)
          else if order.status != PendingPayment then IntentOutcome(400, None, t)
          else
            match Single(t.users, UserIs(order.sellerId))
            case None => IntentOutcome(500, None, t)   // the joined seller is null: reading its account throws
            case Some(seller) =>
              if !Truthy(seller.stripeAccountId) then IntentOutcome(400, None, t)
              else
                match RecordedIntent(t, orderId)
                case Some(intentId) =>
                  (match stripe.retrieve(intentId)
                   case Err(_) => IntentOutcome(500, None, t)
                   case Ok(intent) => IntentOutcome(200, Some(intent), t))
                case None =>
                  match stripe.create(RequestFor(order, seller.stripeAccountId.value))
                  case Err(_) => IntentOutcome(500, None, t)
                  case Ok(intent) =>
                    var payments := if accepted then t.payments + [NewPaymentRow(paymentId, order, intent, defaults)] else t.payments;
                    IntentOutcome(200, Some(intent), t.(payments := payments))
  }

  method CreatePaymentIntent(db: Db, caller: string, httpMethod: string, body: Value, stripe: Processor,
                             paymentId: string, accepted: bool) returns (status: nat, intent: Option<Intent>)
    modifies db
    ensures IntentOutcome(status, intent, db.State())
      == CreatePaymentIntentOutcome(old(db.State()), db.defaults, caller, httpMethod, body, stripe, paymentId, accepted)
  {
    if httpMethod != "POST" {
      return 405, None;
    }
    var validation := ValidateBody(ParseOrderRef(body));
    if validation.Invalid? {
      return 400, None;
    }
    var orderId := validation.data;
    var found := Single(db.orders, OrderIs(orderId));
    if found.None? {
      return 404, None;
    }
    var order := found.value;
    if order.buyerId != caller {
      return 403, None;
    }
    if order.status != PendingPayment {
      return 400, None;
    }
    var seller := Single(db.users, UserIs(order.sellerId));
    if seller.None? {
      return 500, None;
    }
    if !Truthy(seller.value.stripeAccountId) {
      return 400, None;
    }
    var recorded := RecordedIntent(db.State(), orderId);
    if recorded.Some? {
      var fetched := stripe.retrieve(recorded.value);
      if fetched.Err? {
        return 500, None;
      }
      return 200, Some(fetched.value);
    }
    var created := stripe.create(RequestFor(order, seller.value.stripeAccountId.value));
    if created.Err? {
      return 500, None;
    }
    if accepted {
      db.payments := db.payments + [NewPaymentRow(paymentId, order, created.value, db.defaults)];
    }
    return 200, Some(created.value);
  }

  // ---------------------------------------------------------------------------
  // Properties

  /** Every answer other than 200 leaves the tables as they were and carries no intent. */
  lemma RefusalsChangeNothing(t: Tables, defaults: ColumnDefaults, caller: string, httpMethod: string, body: Value,
                              stripe: Processor, paymentId: string, accepted: bool)
    ensures var r := CreatePaymentIntentOutcome(t, defaults, caller, httpMethod, body, stripe, paymentId, accepted);
      && r.status in {200, 400, 403, 404, 405, 500}
      && (r.status != 200 ==> r.tables == t && r.intent.None?)
      && (r.status == 200 <==> r.intent.Some?)
  {
  }

  /**
   * Only the buyer of an order awaiting payment, whose seller has a connected account,
   * obtains an intent; whether the seller's account is validated is never looked at.
   */
  lemma OnlyBuyerOfPendingOrderPays(t: Tables, defaults: ColumnDefaults, caller: string, httpMethod: string, body: Value,
                                    stripe: Processor, paymentId: string, accepted: bool)
    ensures var r := CreatePaymentIntentOutcome(t, defaults, caller, httpMethod, body, stripe, paymentId, accepted);
      r.status == 200 ==>
        && httpMethod == "POST"
        && ParseOrderRef(body).Success?
        && var order := Single(t.orders, OrderIs(ParseOrderRef(body).value));
        && order.Some? && order.value.buyerId == caller && order.value.status == PendingPayment
        && var seller := Single(t.users, UserIs(order.value.sellerId));
        && seller.Some? && Truthy(seller.value.stripeAccountId)
  {
  }

  /**
   * The checks in order, each with its answer: 405 for another method, 400 for a body
   * without a UUID `order_id`, 404 for an unknown order, 403 for an order of another
   * buyer, 400 for an order not awaiting payment, 500 when the seller's row is missing,
   * 400 when the seller has no connected account; past them, 200 exactly when the
   * processor answers, fetching the recorded intent if there is one and creating one
   * otherwise.
   */
  lemma CreatePaymentIntentChecks(t: Tables, defaults: ColumnDefaults, caller: string, httpMethod: string, body: Value,
                                  stripe: Processor, paymentId: string, accepted: bool)
    ensures var r := CreatePaymentIntentOutcome(t, defaults, caller, httpMethod, body, stripe, paymentId, accepted);
      && (httpMethod != "POST" ==> r.status == 405)
      && (httpMethod == "POST" && !ParseOrderRef(body).Success? ==> r.status == 400)
      && (httpMethod == "POST" && ParseOrderRef(body).Success? ==>
            var orderId := ParseOrderRef(body).value;
            var order := Single(t.orders, OrderIs(orderId));
            && (order.None? ==> r.status == 404)
            && (order.Some? && order.value.buyerId != caller ==> r.status == 403)
            && (order.Some? && order.value.buyerId == caller && order.value.status != PendingPayment ==> r.status == 400)
            && (order.Some? && order.value.buyerId == caller && order.value.status == PendingPayment ==>
                  var seller := Single(t.users, UserIs(order.value.sellerId));
                  && (seller.None? ==> r.status == 500)
                  && (seller.Some? && !Truthy(seller.value.stripeAccountId) ==> r.status == 400)
                  && (seller.Some? && Truthy(seller.value.stripeAccountId) ==>
                        && (RecordedIntent(t, orderId).Some? ==>
                              (r.status == 200 <==> stripe.retrieve(RecordedIntent(t, orderId).value).Ok?))
                        && (RecordedIntent(t, orderId).None? ==>
                              (r.status == 200 <==> stripe.create(RequestFor(order.value, seller.value.stripeAccountId.value)).Ok?)))))
  {
  }

  /** Every user's `validated_by_stripe` set to `validated`. */
  function WithValidation(validated: bool): User -> User
  {
    (u: User) => u.(validatedByStripe := validated)
  }

  /**
   * Whether the seller's account is validated by the processor is never looked at:
   * setting that flag on every user, to either value, changes neither the answer nor
   * the intent nor any other table.
   */
  lemma ValidationFlagIgnored(t: Tables, defaults: ColumnDefaults, caller: string, httpMethod: string, body: Value,
                              stripe: Processor, paymentId: string, accepted: bool, validated: bool)
    ensures var r := CreatePaymentIntentOutcome(t, defaults, caller, httpMethod, body, stripe, paymentId, accepted);
      var t' := t.(users := MapRows(t.users, WithValidation(validated)));
      var r' := CreatePaymentIntentOutcome(t', defaults, caller, httpMethod, body, stripe, paymentId, accepted);
      && r'.status == r.status && r'.intent == r.intent
      && r'.tables == r.tables.(users := t'.users)
  {
    if httpMethod == "POST" && ParseOrderRef(body).Success? {
      var order := Single(t.orders, OrderIs(ParseOrderRef(body).value));
      if order.Some? {
        SingleAfterMap(t.users, UserIs(order.value.sellerId), WithValidation(validated));
      }
    }
  }

  /** The checks in order: a foreign order is refused with 403 before its status is looked at, whatever that status. */
  lemma ForeignOrderRefused(t: Tables, defaults: ColumnDefaults, caller: string, body: Value,
                            stripe: Processor, paymentId: string, accepted: bool)
    requires ParseOrderRef(body).Success?
    requires Single(t.orders, OrderIs(ParseOrderRef(body).value)).Some?
    requires Single(t.orders, OrderIs(ParseOrderRef(body).value)).value.buyerId != caller
    ensures CreatePaymentIntentOutcome(t, defaults, caller, "POST", body, stripe, paymentId, accepted) == IntentOutcome(403, None, t)
  {
  }

  /** An intent already recorded for the order is fetched again: nothing is created and nothing is written. */
  lemma RecordedIntentReused(t: Tables, defaults: ColumnDefaults, caller: string, body: Value,
                             stripe: Processor, paymentId: string, accepted: bool)
    requires ParseOrderRef(body).Success?
    requires RecordedIntent(t, ParseOrderRef(body).value).Some?
    ensures var r := CreatePaymentIntentOutcome(t, defaults, caller, "POST", body, stripe, paymentId, accepted);
      && r.tables == t
      && (r.status == 200 ==> r.intent == Some(stripe.retrieve(RecordedIntent(t, ParseOrderRef(body).value).value).value))
  {
  }

  /**
   * A new intent is requested for the order's total and fee in whole cents, routed to
   * the seller's account; the one payment row inserted records the intent, the total,
   * the fee and the seller's share (the subtotal) as `pending`. No other table changes.
   */
  lemma NewIntentRecorded(t: Tables, defaults: ColumnDefaults, caller: string, body: Value,
                          stripe: Processor, paymentId: string)
    requires ParseOrderRef(body).Success?
    requires RecordedIntent(t, ParseOrderRef(body).value).None?
    ensures var r := CreatePaymentIntentOutcome(t, defaults, caller, "POST", body, stripe, paymentId, true);
      r.status == 200 ==>
        var order := Single(t.orders, OrderIs(ParseOrderRef(body).value)).value;
        var seller := Single(t.users, UserIs(order.sellerId)).value;
        var request := RequestFor(order, seller.stripeAccountId.value);
        && stripe.create(request).Ok?
        && request.amountCents == Cents(order.totalAmount)
        && request.applicationFeeCents == Cents(order.platformFee)
        && r.intent == Some(stripe.create(request).value)
        && r.tables == t.(payments := t.payments + [NewPaymentRow(paymentId, order, stripe.create(request).value, defaults)])
        && r.tables.orders == t.orders && r.tables.users == t.users
  {
  }

  /** The order itself is never written: its status stays `pending_payment` until the processor reports the payment. */
  lemma OrdersUntouched(t: Tables, defaults: ColumnDefaults, caller: string, httpMethod: string, body: Value,
                        stripe: Processor, paymentId: string, accepted: bool)
    ensures var r := CreatePaymentIntentOutcome(t, defaults, caller, httpMethod, body, stripe, paymentId, accepted);
      && r.tables.(payments := t.payments) == t
      && (r.tables.payments == t.payments || exists p :: r.tables.payments == t.payments + [p])
  {
  }

  /**
   * A second request for the same order, after the first created an intent with a
   * non-empty id and recorded it as the order's only payment, fetches that intent
   * instead of creating another, and writes nothing.
   */
  lemma SecondRequestReuses(t: Tables, defaults: ColumnDefaults, caller: string, body: Value,
                            stripe: Processor, paymentId: string)
    requires ParseOrderRef(body).Success?
    requires Count(t.payments, PaymentOfOrder(ParseOrderRef(body).value)) == 0
    requires var r := CreatePaymentIntentOutcome(t, defaults, caller, "POST", body, stripe, paymentId, true);
      r.status == 200 && r.intent.value.id != []
    ensures var r := CreatePaymentIntentOutcome(t, defaults, caller, "POST", body, stripe, paymentId, true);
      var again := CreatePaymentIntentOutcome(r.tables, defaults, caller, "POST", body, stripe, paymentId, true);
      && again.tables == r.tables
      && RecordedIntent(r.tables, ParseOrderRef(body).value) == Some(r.intent.value.id)
  {
    var orderId := ParseOrderRef(body).value;
    var r := CreatePaymentIntentOutcome(t, defaults, caller, "POST", body, stripe, paymentId, true);
    assert Single(t.payments, PaymentOfOrder(orderId)).None?;
    var order := Single(t.orders, OrderIs(orderId)).value;
    var p := NewPaymentRow(paymentId, order, r.intent.value, defaults);
    assert r.tables.payments == t.payments + [p];
    MatchingAppend(t.payments, p, PaymentOfOrder(orderId));
    assert Matching(r.tables.payments, PaymentOfOrder(orderId)) == [p];
  }

  /** Cents are rounded to the nearest, halves up: 12.345 euros are 1235 cents, and whole cents are kept exactly. */
  lemma CentsExamples()
    ensures Cents(12.345) == 1235 && Cents(12.344) == 1234 && Cents(99.99) == 9999
  {
  }
}
