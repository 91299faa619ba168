/**
 * The payment processor's webhook: after the method and signature checks, each event
 * type updates the store — a succeeded payment intent marks the payment, moves its
 * order to `payment_received`, opens a delivery and notifies both parties; a failed
 * one marks the payment and notifies the buyer; an account update validates the
 * seller; a transfer marks the payment as paid out.
 *
 * Signature verification is the processor library's: it is given as its verdict on
 * the request (`Verification`). `now` is the time the handler runs and `deliveryId`
 * the id the store gives a new delivery row.
 */
module Webhook {
  import opened Wrappers
  import opened Strings
  import opened Database
  import opened Store

  /** The events the handler distinguishes, with the fields it reads. */
  datatype StripeEvent =
    | PaymentIntentSucceeded(intentId: string, latestCharge: Option<string>)
    | PaymentIntentFailed(intentId: string)
    | AccountUpdated(accountId: string, chargesEnabled: bool, payoutsEnabled: bool)
    | TransferCreated(transferId: string, metadataOrderId: Option<string>)
    | OtherEvent(eventType: string)

  /** `constructEvent(rawBody, signature, secret)`: the event, or the message of the error it throws. */
  datatype Verification = Verified(event: StripeEvent) | SignatureRejected(message: string)

  // Filters and row updates, shared by the handler and its specification.

  function IntentIs(intentId: string): Payment -> bool
  {
    (p: Payment) => p.intentId == Some(intentId)
  }

  function AccountIs(accountId: string): User -> bool
  {
    (u: User) => u.stripeAccountId == Some(accountId)
  }

  function MarkSucceeded(now: int, charge: Option<string>): Payment -> Payment
  {
    (p: Payment) => p.(status := PaymentSucceeded, paidAt := Some(now), chargeId := charge)
  }

  function MarkFailed(): Payment -> Payment
  {
    (p: Payment) => p.(status := PaymentFailed)
  }

  function MarkTransferred(transferId: string, now: int): Payment -> Payment
  {
    (p: Payment) => p.(transferId := Some(transferId), transferredToSeller := true, transferredAt := Some(now))
  }

  function MarkPaymentReceived(): Order -> Order
  {
    (o: Order) => o.(status := PaymentReceived)
  }

  function MarkValidated(): User -> User
  {
    (u: User) => u.(validatedByStripe := true)
  }

  /**
   * `payment_intent.succeeded`. The payment update asks for a single row back
   * (`.select(...).single()`): when it would touch no row or several, PostgREST answers
   * an error and rolls the update back, so the tables stay as they were.
   */
  function Succeeded(t: Tables, intentId: string, charge: Option<string>, now: int, deliveryId: string): Tables
  {
    match Single(t.payments, IntentIs(intentId))
    case None => t
    case Some(found) =>
      var payments := UpdateWhere(t.payments, IntentIs(intentId), MarkSucceeded(now, charge));
      var payment := MarkSucceeded(now, charge)(found);
      var orders := UpdateWhere(t.orders, OrderIs(payment.orderId), MarkPaymentReceived());
      match Single(orders, OrderIs(payment.orderId))
      case None => t.(payments := payments, orders := orders)
      case Some(order) =>
        t.(payments := payments, orders := orders,
           deliveries := t.deliveries + [Delivery(deliveryId, payment.orderId, DeliveryPending, EmptyObject)],
           notifications := t.notifications + [Notification(order.buyerId, PaymentSuccess), Notification(order.sellerId, PaymentReceivedNotice)])
  }

  /** `payment_intent.payment_failed`. */
  function Failed(t: Tables, intentId: string): Tables
  {
    var payments := UpdateWhere(t.payments, IntentIs(intentId), MarkFailed());
    match Single(payments, IntentIs(intentId))
    case None => t.(payments := payments)
    case Some(payment) =>
      match Single(t.orders, OrderIs(payment.orderId))
      case None => t.(payments := payments)
      case Some(order) =>
        t.(payments := payments, notifications := t.notifications + [Notification(order.buyerId, PaymentFailedNotice)])
  }

  /** `account.updated`. */
  function AccountChanged(t: Tables, accountId: string, chargesEnabled: bool, payoutsEnabled: bool): Tables
  {
    if chargesEnabled && payoutsEnabled then t.(users := UpdateWhere(t.users, AccountIs(accountId), MarkValidated()))
    else t
  }

  /** `transfer.created`. */
  function Transferred(t: Tables, transferId: string, metadataOrderId: Option<string>, now: int): Tables
  {
    if Truthy(metadataOrderId) then t.(payments := UpdateWhere(t.payments, PaymentOfOrder(metadataOrderId.value), MarkTransferred(transferId, now)))
    else t
  }

  /** The tables after an event has been applied. */
  function Apply(t: Tables, event: StripeEvent, now: int, deliveryId: string): Tables
  {
    match event
    case PaymentIntentSucceeded(intentId, charge) => Succeeded(t, intentId, charge, now, deliveryId)
    case PaymentIntentFailed(intentId) => Failed(t, intentId)
    case AccountUpdated(accountId, charges, payouts) => AccountChanged(t, accountId, charges, payouts)
    case TransferCreated(transferId, orderId) => Transferred(t, transferId, orderId, now)
    case OtherEvent(_) => t
  }

  /** The whole handler: the method, the presence of a signature, its verification, then the event. */
  function WebhookOutcome(t: Tables, httpMethod: string, signature: Option<string>, verification: Verification,
                          now: int, deliveryId: string): Outcome
  {
    if httpMethod != "POST" then Outcome(405, t)
    else if !Truthy(signature) then Outcome(400, t)
    else if verification.SignatureRejected? then Outcome(400, t)
    else Outcome(200, Apply(t, verification.event, now, deliveryId))
  }

  method HandleWebhook(db: Db, httpMethod: string, signature: Option<string>, verification: Verification,
                       now: int, deliveryId: string) returns (status: nat)
    modifies db
    ensures Outcome(status, db.State()) == WebhookOutcome(old(db.State()), httpMethod, signature, verification, now, deliveryId)
  {
    if httpMethod != "POST" {
      return 405;
    }
    if !Truthy(signature) {
      return 400;
    }
    if verification.SignatureRejected? {
      return 400;
    }
    match verification.event {
      case PaymentIntentSucceeded(intentId, charge) =>
        OnSucceeded(db, intentId, charge, now, deliveryId);
      case PaymentIntentFailed(intentId) =>
        OnFailed(db, intentId);
      case AccountUpdated(accountId, charges, payouts) =>
        if charges && payouts {
          db.users := UpdateWhere(db.users, AccountIs(accountId), MarkValidated());
        }
      case TransferCreated(transferId, orderId) =>
        if Truthy(orderId) {
          db.payments := UpdateWhere(db.payments, PaymentOfOrder(orderId.value), MarkTransferred(transferId, now));
        }
      case OtherEvent(_) =>
    }
    return 200;
  }

  method OnSucceeded(db: Db, intentId: string, charge: Option<string>, now: int, deliveryId: string)
    modifies db
    ensures db.State() == Succeeded(old(db.State()), intentId, charge, now, deliveryId)
  {
    ghost var t := db.State();
    // The singular update writes only when exactly one row carries the intent.
    var found := Single(db.payments, IntentIs(intentId));
    if found.Some? {
      db.payments := UpdateWhere(db.payments, IntentIs(intentId), MarkSucceeded(now, charge));
      assert db.State() == t.(payments := db.payments);
      var payment := MarkSucceeded(now, charge)(found.value);
      db.orders := UpdateWhere(db.orders, OrderIs(payment.orderId), MarkPaymentReceived());
      assert db.State() == t.(payments := db.payments, orders := db.orders);
      var order := Single(db.orders, OrderIs(payment.orderId));
      if order.Some? {
        db.deliveries := db.deliveries + [Delivery(deliveryId, payment.orderId, DeliveryPending, EmptyObject)];
        db.notifications := db.notifications
          + [Notification(order.value.buyerId, PaymentSuccess), Notification(order.value.sellerId, PaymentReceivedNotice)];
      }
    }
  }

  method OnFailed(db: Db, intentId: string)
    modifies db
    ensures db.State() == Failed(old(db.State()), intentId)
  {
    db.payments := UpdateWhere(db.payments, IntentIs(intentId), MarkFailed());
    var payment := Single(db.payments, IntentIs(intentId));
    if payment.Some? {
      var order := Single(db.orders, OrderIs(payment.value.orderId));
      if order.Some? {
        db.notifications := db.notifications + [Notification(order.value.buyerId, PaymentFailedNotice)];
      }
    }
  }

  // ---------------------------------------------------------------------------
  // Properties

  /** A request refused at the method, signature-presence or signature check changes no table. */
  lemma RefusedRequestsChangeNothing(t: Tables, httpMethod: string, signature: Option<string>, verification: Verification,
                                     now: int, deliveryId: string)
    ensures var r := WebhookOutcome(t, httpMethod, signature, verification, now, deliveryId);
      && (httpMethod != "POST" ==> r == Outcome(405, t))
      && (httpMethod == "POST" && !Truthy(signature) ==> r == Outcome(400, t))
      && (httpMethod == "POST" && Truthy(signature) && verification.SignatureRejected? ==> r == Outcome(400, t))
      && (r.status != 200 ==> r.tables == t)
  {
  }

  /** A verified event is always acknowledged with 200, whatever it changes. */
  lemma VerifiedEventAcknowledged(t: Tables, signature: Option<string>, event: StripeEvent, now: int, deliveryId: string)
    requires Truthy(signature)
    ensures WebhookOutcome(t, "POST", signature, Verified(event), now, deliveryId).status == 200
  {
  }

  /**
   * `payment_intent.succeeded` with exactly one payment for the intent: every row of
   * that payment becomes `succeeded` with the charge and the payment time, the other
   * payments are unchanged, and every row of its order becomes `payment_received`,
   * whatever its status was. No table other than the payments, the orders, the
   * deliveries and the notifications changes, and the last two change only when the
   * order is found afterwards.
   */
  lemma SucceededMarksPaymentAndOrder(t: Tables, intentId: string, charge: Option<string>, now: int, deliveryId: string)
    requires Single(t.payments, IntentIs(intentId)).Some?
    ensures var payment := Single(t.payments, IntentIs(intentId)).value;
      var t' := Succeeded(t, intentId, charge, now, deliveryId);
      && |t'.payments| == |t.payments|
      && (forall i :: 0 <= i < |t.payments| && t.payments[i].intentId == Some(intentId) ==>
            t'.payments[i] == t.payments[i].(status := PaymentSucceeded, paidAt := Some(now), chargeId := charge))
      && (forall i :: 0 <= i < |t.payments| && t.payments[i].intentId != Some(intentId) ==> t'.payments[i] == t.payments[i])
      && |t'.orders| == |t.orders|
      && (forall i :: 0 <= i < |t.orders| && t.orders[i].id == payment.orderId ==>
            t'.orders[i] == t.orders[i].(status := PaymentReceived))
      && (forall i :: 0 <= i < |t.orders| && t.orders[i].id != payment.orderId ==> t'.orders[i] == t.orders[i])
      && t'.(payments := t.payments, orders := t.orders, deliveries := t.deliveries, notifications := t.notifications) == t
      && (Single(t'.orders, OrderIs(payment.orderId)).None? ==> t'.deliveries == t.deliveries && t'.notifications == t.notifications)
  {
    SingleAfterUpdate(t.payments, IntentIs(intentId), MarkSucceeded(now, charge));
  }

  /**
   * When the order is found too, exactly one pending delivery with an empty shipping
   * address and two notifications — `payment_success` to the buyer, `payment_received`
   * to the seller — are appended.
   */
  lemma SucceededOpensDelivery(t: Tables, intentId: string, charge: Option<string>, now: int, deliveryId: string)
    requires Single(t.payments, IntentIs(intentId)).Some?
    requires Single(t.orders, OrderIs(Single(t.payments, IntentIs(intentId)).value.orderId)).Some?
    ensures var payment := Single(t.payments, IntentIs(intentId)).value;
      var order := Single(t.orders, OrderIs(payment.orderId)).value;
      var t' := Succeeded(t, intentId, charge, now, deliveryId);
      && t'.deliveries == t.deliveries + [Delivery(deliveryId, payment.orderId, DeliveryPending, EmptyObject)]
      && t'.notifications == t.notifications
           + [Notification(order.buyerId, PaymentSuccess), Notification(order.sellerId, PaymentReceivedNotice)]
  {
    var payment := Single(t.payments, IntentIs(intentId)).value;
    SingleAfterUpdate(t.payments, IntentIs(intentId), MarkSucceeded(now, charge));
    SingleAfterUpdate(t.orders, OrderIs(payment.orderId), MarkPaymentReceived());
  }

  /**
   * Replaying a `payment_intent.succeeded` event is not idempotent: the second
   * delivery of the same event opens a second delivery for the order.
   */
  lemma SucceededReplayOpensSecondDelivery(t: Tables, intentId: string, charge: Option<string>, now: int, later: int,
                                           d1: string, d2: string)
    requires Single(t.payments, IntentIs(intentId)).Some?
    requires Single(t.orders, OrderIs(Single(t.payments, IntentIs(intentId)).value.orderId)).Some?
    ensures var t1 := Succeeded(t, intentId, charge, now, d1);
      var t2 := Succeeded(t1, intentId, charge, later, d2);
      var orderId := Single(t.payments, IntentIs(intentId)).value.orderId;
      && |t2.deliveries| == |t.deliveries| + 2
      && t2.deliveries[|t.deliveries|].orderId == orderId
      && t2.deliveries[|t.deliveries| + 1].orderId == orderId
  {
    var payment := Single(t.payments, IntentIs(intentId)).value;
    var t1 := Succeeded(t, intentId, charge, now, d1);
    SucceededOpensDelivery(t, intentId, charge, now, d1);
    SingleAfterUpdate(t.payments, IntentIs(intentId), MarkSucceeded(now, charge));
    SingleAfterUpdate(t.orders, OrderIs(payment.orderId), MarkPaymentReceived());
    assert Single(t1.payments, IntentIs(intentId)) == Some(MarkSucceeded(now, charge)(payment));
    SingleAfterUpdate(t.orders, OrderIs(payment.orderId), MarkPaymentReceived());
    SucceededOpensDelivery(t1, intentId, charge, later, d2);
  }

  /** With no payment for the intent, `payment_intent.succeeded` changes nothing, and it is still answered 200. */
  lemma SucceededWithoutPayment(t: Tables, signature: Option<string>, intentId: string, charge: Option<string>,
                                now: int, deliveryId: string)
    requires Truthy(signature)
    requires forall i :: 0 <= i < |t.payments| ==> t.payments[i].intentId != Some(intentId)
    ensures WebhookOutcome(t, "POST", signature, Verified(PaymentIntentSucceeded(intentId, charge)), now, deliveryId) == Outcome(200, t)
  {
    CountNone(t.payments, IntentIs(intentId));
  }

  /**
   * With several payments for the intent the singular update is rolled back: no
   * payment is marked, no order moves, and nothing is inserted.
   */
  lemma SucceededOnSeveralPaymentsRolledBack(t: Tables, intentId: string, charge: Option<string>, now: int, deliveryId: string)
    requires Count(t.payments, IntentIs(intentId)) >= 2
    ensures Succeeded(t, intentId, charge, now, deliveryId) == t
  {
  }

  /**
   * `payment_intent.succeeded` as it is evidently meant to behave under redelivery:
   * a payment already marked `succeeded` is left alone, so its order is not given a
   * second delivery nor its parties a second pair of notifications.
   */
  function SucceededOnce(t: Tables, intentId: string, charge: Option<string>, now: int, deliveryId: string): Tables
  {
    var found := Single(t.payments, IntentIs(intentId));
    if found.Some? && found.value.status == PaymentSucceeded then t
    else Succeeded(t, intentId, charge, now, deliveryId)
  }

  /**
   * Delivering the same event a second time, at any later time and with any new
   * delivery id, changes nothing more; the first delivery does everything `Succeeded`
   * does for a payment that had not yet succeeded.
   */
  lemma SucceededOnceIdempotent(t: Tables, intentId: string, charge: Option<string>, now: int, later: int,
                                d1: string, d2: string)
    ensures var t1 := SucceededOnce(t, intentId, charge, now, d1);
      SucceededOnce(t1, intentId, charge, later, d2) == t1
    ensures var found := Single(t.payments, IntentIs(intentId));
      found.Some? && found.value.status != PaymentSucceeded ==>
        SucceededOnce(t, intentId, charge, now, d1) == Succeeded(t, intentId, charge, now, d1)
  {
    var found := Single(t.payments, IntentIs(intentId));
    if found.Some? && found.value.status != PaymentSucceeded {
      var t1 := Succeeded(t, intentId, charge, now, d1);
      SingleAfterUpdate(t.payments, IntentIs(intentId), MarkSucceeded(now, charge));
      assert t1.payments == UpdateWhere(t.payments, IntentIs(intentId), MarkSucceeded(now, charge));
      assert Single(t1.payments, IntentIs(intentId)).value.status == PaymentSucceeded;
    }
  }

  /**
   * `payment_intent.payment_failed`: the payment's rows become `failed` and no other
   * table changes except the notifications, which gain one `payment_failed` notice
   * to the buyer exactly when one payment carries the intent and its order is found.
   */
  lemma FailedTouchesOnlyPayment(t: Tables, intentId: string)
    ensures var t' := Failed(t, intentId);
      && |t'.payments| == |t.payments|
      && (forall i :: 0 <= i < |t.payments| ==>
            t'.payments[i] == if t.payments[i].intentId == Some(intentId) then t.payments[i].(status := PaymentFailed) else t.payments[i])
      && t'.(payments := t.payments, notifications := t.notifications) == t
      && var payment := Single(t.payments, IntentIs(intentId));
         var order := if payment.Some? then Single(t.orders, OrderIs(payment.value.orderId)) else None;
         && (order.Some? ==> t'.notifications == t.notifications + [Notification(order.value.buyerId, PaymentFailedNotice)])
         && (order.None? ==> t'.notifications == t.notifications)
  {
    SingleAfterUpdate(t.payments, IntentIs(intentId), MarkFailed());
  }

  /**
   * `account.updated`: the users holding that account are validated only when both
   * charges and payouts are enabled; the flag is never cleared and no other column changes.
   */
  lemma AccountValidation(t: Tables, accountId: string, chargesEnabled: bool, payoutsEnabled: bool)
    ensures var t' := AccountChanged(t, accountId, chargesEnabled, payoutsEnabled);
      && |t'.users| == |t.users|
      && (forall i :: 0 <= i < |t.users| ==>
            && t'.users[i].validatedByStripe == (t.users[i].validatedByStripe
                 || (chargesEnabled && payoutsEnabled && t.users[i].stripeAccountId == Some(accountId)))
            && t'.users[i] == t.users[i].(validatedByStripe := t'.users[i].validatedByStripe))
      && t'.(users := t.users) == t
  {
  }

  /**
   * `transfer.created` with an order id in its metadata marks that order's payments
   * as transferred; without one nothing changes.
   */
  lemma TransferMarksPayment(t: Tables, transferId: string, metadataOrderId: Option<string>, now: int)
    ensures !Truthy(metadataOrderId) ==> Transferred(t, transferId, metadataOrderId, now) == t
    ensures Truthy(metadataOrderId) ==>
      var t' := Transferred(t, transferId, metadataOrderId, now);
      && t'.(payments := t.payments) == t
      && |t'.payments| == |t.payments|
      && forall i :: 0 <= i < |t.payments| ==>
           t'.payments[i] == if t.payments[i].orderId == metadataOrderId.value
                             then t.payments[i].(transferId := Some(transferId), transferredToSeller := true, transferredAt := Some(now))
                             else t.payments[i]
  {
  }

  /** An event of any other type is answered 200 and changes nothing. */
  lemma OtherEventsIgnored(t: Tables, signature: Option<string>, eventType: string, now: int, deliveryId: string)
    requires Truthy(signature)
    ensures WebhookOutcome(t, "POST", signature, Verified(OtherEvent(eventType)), now, deliveryId) == Outcome(200, t)
  {
  }
}
