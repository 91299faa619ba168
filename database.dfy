/**
 * The rows of the marketplace's tables, as declared in `types/database.ts`, restricted to
 * the columns the modelled handlers read or write, and the closed string enumerations
 * the tables use. Every enumeration comes with its database spelling (`…Name`) and the
 * inverse reading of a string (`Parse…`), which is also what a `z.enum([...])` schema does.
 *
 * Timestamps are milliseconds since the epoch (`int`); money is a `real` number of euros.
 */
module Database {
  import opened Wrappers

  /** The state of an offer a buyer made on an ad. */
  datatype OfferStatus = OfferPending | OfferAccepted | OfferRejected | OfferCancelled

  /** The spelling of an OfferStatus value in the database and in request bodies. */
  function OfferStatusName(v: OfferStatus): string
  {
    match v
    case OfferPending => "pending"
    case OfferAccepted => "accepted"
    case OfferRejected => "rejected"
    case OfferCancelled => "cancelled"
  }

  /** Reads a string as an OfferStatus value: exactly the spellings of the values are accepted. */
  function ParseOfferStatus(s: string): (r: Option<OfferStatus>)
    ensures forall v :: r == Some(v) <==> OfferStatusName(v) == s
  {
    if s == "pending" then Some(OfferPending)
    else if s == "accepted" then Some(OfferAccepted)
    else if s == "rejected" then Some(OfferRejected)
    else if s == "cancelled" then Some(OfferCancelled)
    else None
  }

  const AllOfferStatuses: set<OfferStatus> := {OfferPending, OfferAccepted, OfferRejected, OfferCancelled}

  /** The state of an order, from awaiting payment to its end. */
  datatype OrderStatus = PendingPayment | PaymentReceived | OrderProcessing | OrderShipped | OrderDelivered | OrderCompleted | OrderCancelled | OrderRefunded

  /** The spelling of an OrderStatus value in the database and in request bodies. */
  function OrderStatusName(v: OrderStatus): string
  {
    match v
    case PendingPayment => "pending_payment"
    case PaymentReceived => "payment_received"
    case OrderProcessing => "processing"
    case OrderShipped => "shipped"
    case OrderDelivered => "delivered"
    case OrderCompleted => "completed"
    case OrderCancelled => "cancelled"
    case OrderRefunded => "refunded"
  }

  /** Reads a string as an OrderStatus value: exactly the spellings of the values are accepted. */
  function ParseOrderStatus(s: string): (r: Option<OrderStatus>)
    ensures forall v :: r == Some(v) <==> OrderStatusName(v) == s
  {
    if s == "pending_payment" then Some(PendingPayment)
    else if s == "payment_received" then Some(PaymentReceived)
    else if s == "processing" then Some(OrderProcessing)
    else if s == "shipped" then Some(OrderShipped)
    else if s == "delivered" then Some(OrderDelivered)
    else if s == "completed" then Some(OrderCompleted)
    else if s == "cancelled" then Some(OrderCancelled)
    else if s == "refunded" then Some(OrderRefunded)
    else None
  }

  const AllOrderStatuses: set<OrderStatus> := {PendingPayment, PaymentReceived, OrderProcessing, OrderShipped, OrderDelivered, OrderCompleted, OrderCancelled, OrderRefunded}

  /** The state of the payment of an order. */
  datatype PaymentStatus = PaymentPending | PaymentProcessing | PaymentSucceeded | PaymentFailed | PaymentRefunded | PaymentPartiallyRefunded

  /** The spelling of a PaymentStatus value in the database and in request bodies. */
  function PaymentStatusName(v: PaymentStatus): string
  {
    match v
    case PaymentPending => "pending"
    case PaymentProcessing => "processing"
    case PaymentSucceeded => "succeeded"
    case PaymentFailed => "failed"
    case PaymentRefunded => "refunded"
    case PaymentPartiallyRefunded => "partially_refunded"
  }

  /** Reads a string as a PaymentStatus value: exactly the spellings of the values are accepted. */
  function ParsePaymentStatus(s: string): (r: Option<PaymentStatus>)
    ensures forall v :: r == Some(v) <==> PaymentStatusName(v) == s
  {
    if s == "pending" then Some(PaymentPending)
    else if s == "processing" then Some(PaymentProcessing)
    else if s == "succeeded" then Some(PaymentSucceeded)
    else if s == "failed" then Some(PaymentFailed)
    else if s == "refunded" then Some(PaymentRefunded)
    else if s == "partially_refunded" then Some(PaymentPartiallyRefunded)
    else None
  }

  const AllPaymentStatuses: set<PaymentStatus> := {PaymentPending, PaymentProcessing, PaymentSucceeded, PaymentFailed, PaymentRefunded, PaymentPartiallyRefunded}

  /** The state of the delivery of an order. */
  datatype DeliveryStatus = DeliveryPending | DeliveryPreparing | DeliveryShipped | DeliveryInTransit | DeliveryDelivered | DeliveryFailed | DeliveryReturned

  /** The spelling of a DeliveryStatus value in the database and in request bodies. */
  function DeliveryStatusName(v: DeliveryStatus): string
  {
    match v
    case DeliveryPending => "pending"
    case DeliveryPreparing => "preparing"
    case DeliveryShipped => "shipped"
    case DeliveryInTransit => "in_transit"
    case DeliveryDelivered => "delivered"
    case DeliveryFailed => "failed"
    case DeliveryReturned => "returned"
  }

  /** Reads a string as a DeliveryStatus value: exactly the spellings of the values are accepted. */
  function ParseDeliveryStatus(s: string): (r: Option<DeliveryStatus>)
    ensures forall v :: r == Some(v) <==> DeliveryStatusName(v) == s
  {
    if s == "pending" then Some(DeliveryPending)
    else if s == "preparing" then Some(DeliveryPreparing)
    else if s == "shipped" then Some(DeliveryShipped)
    else if s == "in_transit" then Some(DeliveryInTransit)
    else if s == "delivered" then Some(DeliveryDelivered)
    else if s == "failed" then Some(DeliveryFailed)
    else if s == "returned" then Some(DeliveryReturned)
    else None
  }

  const AllDeliveryStatuses: set<DeliveryStatus> := {DeliveryPending, DeliveryPreparing, DeliveryShipped, DeliveryInTransit, DeliveryDelivered, DeliveryFailed, DeliveryReturned}

  /** The state of a claim filed about an order. */
  datatype ClaimStatus = ClaimOpen | ClaimInReview | ClaimResolved | ClaimRejected | ClaimClosed

  /** The spelling of a ClaimStatus value in the database and in request bodies. */
  function ClaimStatusName(v: ClaimStatus): string
  {
    match v
    case ClaimOpen => "open"
    case ClaimInReview => "in_review"
    case ClaimResolved => "resolved"
    case ClaimRejected => "rejected"
    case ClaimClosed => "closed"
  }

  /** Reads a string as a ClaimStatus value: exactly the spellings of the values are accepted. */
  function ParseClaimStatus(s: string): (r: Option<ClaimStatus>)
    ensures forall v :: r == Some(v) <==> ClaimStatusName(v) == s
  {
    if s == "open" then Some(ClaimOpen)
    else if s == "in_review" then Some(ClaimInReview)
    else if s == "resolved" then Some(ClaimResolved)
    else if s == "rejected" then Some(ClaimRejected)
    else if s == "closed" then Some(ClaimClosed)
    else None
  }

  const AllClaimStatuses: set<ClaimStatus> := {ClaimOpen, ClaimInReview, ClaimResolved, ClaimRejected, ClaimClosed}

  /** What a claim is about. */
  datatype ClaimType = ProductDamaged | ProductMissing | WrongProduct | QualityIssue | OtherIssue

  /** The spelling of a ClaimType value in the database and in request bodies. */
  function ClaimTypeName(v: ClaimType): string
  {
    match v
    case ProductDamaged => "product_damaged"
    case ProductMissing => "product_missing"
    case WrongProduct => "wrong_product"
    case QualityIssue => "quality_issue"
    case OtherIssue => "other"
  }

  /** Reads a string as a ClaimType value: exactly the spellings of the values are accepted. */
  function ParseClaimType(s: string): (r: Option<ClaimType>)
    ensures forall v :: r == Some(v) <==> ClaimTypeName(v) == s
  {
    if s == "product_damaged" then Some(ProductDamaged)
    else if s == "product_missing" then Some(ProductMissing)
    else if s == "wrong_product" then Some(WrongProduct)
    else if s == "quality_issue" then Some(QualityIssue)
    else if s == "other" then Some(OtherIssue)
    else None
  }

  /** How an ad sells: by auction or at a fixed price. */
  datatype AdType = Auction | DirectPurchase

  /** The spelling of an AdType value in the database and in request bodies. */
  function AdTypeName(v: AdType): string
  {
    match v
    case Auction => "Enchère"
    case DirectPurchase => "Achat Direct"
  }

  /** Reads a string as an AdType value: exactly the spellings of the values are accepted. */
  function ParseAdType(s: string): (r: Option<AdType>)
    ensures forall v :: r == Some(v) <==> AdTypeName(v) == s
  {
    if s == "Enchère" then Some(Auction)
    else if s == "Achat Direct" then Some(DirectPurchase)
    else None
  }

  /** The kind of lot an ad offers. */
  datatype MerchandiseType = SingleReference | SeveralReferences | UnsoldSingleReference | UnsoldSeveralReferences

  /** The spelling of a MerchandiseType value in the database and in request bodies. */
  function MerchandiseTypeName(v: MerchandiseType): string
  {
    match v
    case SingleReference => "Référence Unique"
    case SeveralReferences => "Plusieurs Références"
    case UnsoldSingleReference => "Invendus - Référence Unique"
    case UnsoldSeveralReferences => "Invendus - Plusieurs Références"
  }

  /** Reads a string as a MerchandiseType value: exactly the spellings of the values are accepted. */
  function ParseMerchandiseType(s: string): (r: Option<MerchandiseType>)
    ensures forall v :: r == Some(v) <==> MerchandiseTypeName(v) == s
  {
    if s == "Référence Unique" then Some(SingleReference)
    else if s == "Plusieurs Références" then Some(SeveralReferences)
    else if s == "Invendus - Référence Unique" then Some(UnsoldSingleReference)
    else if s == "Invendus - Plusieurs Références" then Some(UnsoldSeveralReferences)
    else None
  }

  /** When the merchandise of an ad is available. */
  datatype Availability = Immediate | InOneWeek | InTwoWeeks | InOneMonth

  /** The spelling of an Availability value in the database and in request bodies. */
  function AvailabilityName(v: Availability): string
  {
    match v
    case Immediate => "Immediate"
    case InOneWeek => "Dans 1 semaine"
    case InTwoWeeks => "Dans 2 semaines"
    case InOneMonth => "Dans 1 mois"
  }

  /** Reads a string as an Availability value: exactly the spellings of the values are accepted. */
  function ParseAvailability(s: string): (r: Option<Availability>)
    ensures forall v :: r == Some(v) <==> AvailabilityName(v) == s
  {
    if s == "Immediate" then Some(Immediate)
    else if s == "Dans 1 semaine" then Some(InOneWeek)
    else if s == "Dans 2 semaines" then Some(InTwoWeeks)
    else if s == "Dans 1 mois" then Some(InOneMonth)
    else None
  }

  /** The category of an ad. */
  datatype Category = Food | FurnitureAppliances | MultimediaTechnology | DecorBazaar | FashionTextile | BeautyHealth | SportLeisure | OtherCategory

  /** The spelling of a Category value in the database and in request bodies. */
  function CategoryName(v: Category): string
  {
    match v
    case Food => "Alimentaire"
    case FurnitureAppliances => "Mobilier-Electroménager"
    case MultimediaTechnology => "Multimédia-Technologies"
    case DecorBazaar => "Décor-Bazar"
    case FashionTextile => "Mode-Textile"
    case BeautyHealth => "Beauté-Santé"
    case SportLeisure => "Sport-Loisirs"
    case OtherCategory => "Autre"
  }

  /** Reads a string as a Category value: exactly the spellings of the values are accepted. */
  function ParseCategory(s: string): (r: Option<Category>)
    ensures forall v :: r == Some(v) <==> CategoryName(v) == s
  {
    if s == "Alimentaire" then Some(Food)
    else if s == "Mobilier-Electroménager" then Some(FurnitureAppliances)
    else if s == "Multimédia-Technologies" then Some(MultimediaTechnology)
    else if s == "Décor-Bazar" then Some(DecorBazaar)
    else if s == "Mode-Textile" then Some(FashionTextile)
    else if s == "Beauté-Santé" then Some(BeautyHealth)
    else if s == "Sport-Loisirs" then Some(SportLeisure)
    else if s == "Autre" then Some(OtherCategory)
    else None
  }

  /** The role of a back-office administrator (its `admin_users.role` column). */
  datatype AdminRole = Executive | Admin | Member

  /** The spelling of an AdminRole value in the database and in request bodies. */
  function AdminRoleName(v: AdminRole): string
  {
    match v
    case Executive => "Executif"
    case Admin => "Admin"
    case Member => "Member"
  }

  /** Reads a string as an AdminRole value: exactly the spellings of the values are accepted. */
  function ParseAdminRole(s: string): (r: Option<AdminRole>)
    ensures forall v :: r == Some(v) <==> AdminRoleName(v) == s
  {
    if s == "Executif" then Some(Executive)
    else if s == "Admin" then Some(Admin)
    else if s == "Member" then Some(Member)
    else None
  }

  /** Offer statuses form a closed set of four values. */
  lemma OfferStatusClosed()
    ensures |AllOfferStatuses| == 4 && forall s: OfferStatus :: s in AllOfferStatuses
  {
    var first := {OfferPending, OfferAccepted};
    assert AllOfferStatuses == first + {OfferRejected, OfferCancelled};
    forall s: OfferStatus ensures s in AllOfferStatuses {
      match s
      case OfferPending =>
      case OfferAccepted =>
      case OfferRejected =>
      case OfferCancelled =>
    }
  }

  /** Order statuses form a closed set of eight values. */
  lemma OrderStatusClosed()
    ensures |AllOrderStatuses| == 8 && forall s: OrderStatus :: s in AllOrderStatuses
  {
    var first := {PendingPayment, PaymentReceived, OrderProcessing, OrderShipped};
    var last := {OrderDelivered, OrderCompleted, OrderCancelled, OrderRefunded};
    assert |first| == 4 by {
      var a := {PendingPayment, PaymentReceived};
      assert first == a + {OrderProcessing, OrderShipped};
    }
    assert |last| == 4 by {
      var a := {OrderDelivered, OrderCompleted};
      assert last == a + {OrderCancelled, OrderRefunded};
    }
    assert first * last == {};
    assert AllOrderStatuses == first + last;
    forall s: OrderStatus ensures s in AllOrderStatuses {
      match s
      case PendingPayment =>
      case PaymentReceived =>
      case OrderProcessing =>
      case OrderShipped =>
      case OrderDelivered =>
      case OrderCompleted =>
      case OrderCancelled =>
      case OrderRefunded =>
    }
  }

  /** Payment statuses form a closed set of six values. */
  lemma PaymentStatusClosed()
    ensures |AllPaymentStatuses| == 6 && forall s: PaymentStatus :: s in AllPaymentStatuses
  {
    var first := {PaymentPending, PaymentProcessing};
    var middle := first + {PaymentSucceeded, PaymentFailed};
    assert |middle| == 4;
    assert AllPaymentStatuses == middle + {PaymentRefunded, PaymentPartiallyRefunded};
    forall s: PaymentStatus ensures s in AllPaymentStatuses {
      match s
      case PaymentPending =>
      case PaymentProcessing =>
      case PaymentSucceeded =>
      case PaymentFailed =>
      case PaymentRefunded =>
      case PaymentPartiallyRefunded =>
    }
  }

  /** Delivery statuses form a closed set of seven values. */
  lemma DeliveryStatusClosed()
    ensures |AllDeliveryStatuses| == 7 && forall s: DeliveryStatus :: s in AllDeliveryStatuses
  {
    var first := {DeliveryPending, DeliveryPreparing};
    var middle := first + {DeliveryShipped, DeliveryInTransit};
    assert |middle| == 4;
    var most := middle + {DeliveryDelivered, DeliveryFailed};
    assert |most| == 6;
    assert AllDeliveryStatuses == most + {DeliveryReturned};
    forall s: DeliveryStatus ensures s in AllDeliveryStatuses {
      match s
      case DeliveryPending =>
      case DeliveryPreparing =>
      case DeliveryShipped =>
      case DeliveryInTransit =>
      case DeliveryDelivered =>
      case DeliveryFailed =>
      case DeliveryReturned =>
    }
  }

  /** Claim statuses form a closed set of five values. */
  lemma ClaimStatusClosed()
    ensures |AllClaimStatuses| == 5 && forall s: ClaimStatus :: s in AllClaimStatuses
  {
    var first := {ClaimOpen, ClaimInReview};
    var middle := first + {ClaimResolved, ClaimRejected};
    assert |middle| == 4;
    assert AllClaimStatuses == middle + {ClaimClosed};
    forall s: ClaimStatus ensures s in AllClaimStatuses {
      match s
      case ClaimOpen =>
      case ClaimInReview =>
      case ClaimResolved =>
      case ClaimRejected =>
      case ClaimClosed =>
    }
  }

  // ---------------------------------------------------------------------------
  // Rows

  /** A postal address: four required strings and an optional complement. */
  datatype Address = Address(street: string, city: string, postalCode: string, country: string, additionalInfo: Option<string>)

  /** The `shipping_address` column of a delivery: an address, or the empty JSON object the webhook writes. */
  datatype ShippingAddress = ShipTo(address: Address) | EmptyObject

  /**
   * A `users` row. `stripe_account_id` is nullable and `validated_by_stripe` is a
   * non-null flag; `company_name` is nullable.
   */
  datatype User = User(
    id: string,
    isOnlyBuyer: bool,
    firstname: string,
    lastname: string,
    companyName: Option<string>,
    tel: string,
    email: string,
    validatedByStripe: bool,
    stripeAccountId: Option<string>)

  /** The columns of an ad that its author supplies, as `createAdSchema` produces them (defaults applied). */
  datatype AdFields = AdFields(
    title: string,
    otherInfo: Option<string>,
    photos: seq<string>,
    adType: AdType,
    auctionDuration: Option<string>,
    merchandiseType: MerchandiseType,
    weight: Option<real>,
    dlcDdm: Option<string>,
    availability: Availability,
    unitPrice: real,
    totalPrice: real,
    advisedUnitPriceMin: Option<real>,
    advisedUnitPriceMax: Option<real>,
    unitQuantity: int,
    totalQuantity: int,
    nbPalets: Option<int>,
    listingFile: Option<string>,
    additionalFiles: seq<string>,
    category: Category)

  /** An `ads` row: the author's columns plus the ones the server sets. */
  datatype Ad = Ad(id: string, authorId: string, fields: AdFields, auctionEndDate: Option<int>, isActive: bool, createdAt: int)

  /** An `offers` row. */
  datatype Offer = Offer(
    id: string,
    adId: string,
    sellerId: string,
    buyerId: string,
    priceOffered: real,
    quantity: int,
    status: OfferStatus,
    message: Option<string>)

  /**
   * An `orders` row: non-null shipping and billing addresses and numeric amounts.
   * Orders are created by code outside this model and enter it as existing rows.
   */
  datatype Order = Order(
    id: string,
    buyerId: string,
    sellerId: string,
    subtotal: real,
    platformFee: real,
    totalAmount: real,
    status: OrderStatus,
    shippingAddress: Address,
    billingAddress: Address)

  /**
   * A `payments` row: `transferred_to_seller` is a non-null flag, the processor's
   * intent, charge and transfer ids are nullable.
   */
  datatype Payment = Payment(
    id: string,
    orderId: string,
    intentId: Option<string>,
    chargeId: Option<string>,
    amount: real,
    platformFee: real,
    sellerAmount: real,
    currency: string,
    status: PaymentStatus,
    paidAt: Option<int>,
    transferredToSeller: bool,
    transferredAt: Option<int>,
    transferId: Option<string>)

  /** A `deliveries` row. */
  datatype Delivery = Delivery(id: string, orderId: string, status: DeliveryStatus, shippingAddress: ShippingAddress)

  /** A `claims` row. */
  datatype Claim = Claim(
    id: string,
    orderId: string,
    claimantId: string,
    claimType: ClaimType,
    status: ClaimStatus,
    subject: string,
    description: string,
    photos: seq<string>)

  /** A `notifications` row, reduced to its recipient and its `type`. */
  datatype Notification = Notification(userId: string, kind: string)

  const NewOffer: string := "new_offer"
  const NewClaim: string := "new_claim"
  const PaymentSuccess: string := "payment_success"
  const PaymentReceivedNotice: string := "payment_received"
  const PaymentFailedNotice: string := "payment_failed"

  /** An `admin_users` row (a back-office account). */
  datatype AdminUser = AdminUser(id: string, email: string, role: AdminRole, isActive: bool)

  /**
   * An `admin_activity_logs` row. `metadata` is a JSON column whose contents the
   * callers choose; it is kept here as its serialized text.
   */
  datatype AdminLog = AdminLog(
    adminId: string,
    action: string,
    description: string,
    targetType: Option<string>,
    targetId: Option<string>,
    metadata: Option<string>,
    ipAddress: Option<string>)

  /**
   * The values the store gives the columns an insert leaves out: the Insert shapes make
   * the statuses of offers and claims, the activity of an ad and the transfer flag of a
   * payment optional. The schema that fixes them is not part of this model, so the
   * store carries them as parameters.
   */
  datatype ColumnDefaults = ColumnDefaults(
    offerStatus: OfferStatus,
    claimStatus: ClaimStatus,
    adIsActive: bool,
    transferredToSeller: bool)
}
