/**
 * The request-body schemas of `lib/api/validation.ts` and its `validateBody` helper.
 *
 * A schema is modelled as a parser from a JSON value to either the typed data it
 * produces (unknown keys dropped, defaults filled in) or the first issue it reports.
 * zod checks the keys of an object in declaration order and, within one key, the type
 * first and then each refinement in declaration order; `validateBody` only ever shows
 * the first issue, so the parser stops at it. Every schema also has a declarative
 * `…Valid` predicate saying which bodies it accepts, and the parser's contract ties
 * the two together.
 */
module Validation {
  import opened Wrappers
  import opened Strings
  import opened Database

  /** A JSON value; a key missing from an object stands for `undefined`. `NaN` comes from `Number(...)` on a query string. */
  datatype Value = Null | Bool(b: bool) | Num(n: real) | NaN | Str(s: string) | Arr(items: seq<Value>) | Obj(fields: map<string, Value>)

  /** The kinds of zod issues the schemas can raise; `Missing` is an `invalid_type` issue about `undefined`. */
  datatype IssueCode = Missing | InvalidType | InvalidEnumValue | InvalidString | NotInteger | TooSmall | TooBig

  /** The message of an issue: the text the schema supplies, or zod's standard wording for the issue's kind. */
  datatype Message = Custom(text: string) | Standard(code: IssueCode)

  /** The outcome of `schema.parse`: the data, a `ZodError` (of which the first issue's message is kept), or another exception. */
  datatype Parsed<+T> = Success(value: T) | Failure(message: Message) | Crashed
  {
    predicate IsFailure()
    {
      !Success?
    }

    function PropagateFailure<U>(): Parsed<U>
      requires !Success?
    {
      if Failure? then Failure(message) else Crashed
    }

    function Extract(): T
      requires Success?
    {
      value
    }
  }

  /** The answer of `validateBody`. */
  datatype Validated<+T> = Valid(data: T) | Invalid(error: Message)

  const InvalidDataMessage: string := "Données invalides"

  /**
   * `validateBody`: the parsed data on success; the first issue's message on a
   * `ZodError`; a fixed message for any other exception.
   */
  function ValidateBody<T>(p: Parsed<T>): (r: Validated<T>)
    ensures r.Valid? <==> p.Success?
    ensures r.Valid? ==> r.data == p.value
    ensures p.Failure? ==> r == Invalid(p.message)
    ensures p.Crashed? ==> r == Invalid(Custom(InvalidDataMessage))
  {
    match p
    case Success(data) => Valid(data)
    case Failure(m) => Invalid(m)
    case Crashed => Invalid(Custom(InvalidDataMessage))
  }

  // ---------------------------------------------------------------------------
  // Leaf schemas

  predicate IsHexDigit(c: char)
  {
    '0' <= c <= '9' || 'a' <= c <= 'f' || 'A' <= c <= 'F'
  }

  /** zod's UUID format: 8-4-4-4-12 hexadecimal digits separated by dashes, in either case. */
  predicate IsUuid(s: string)
  {
    |s| == 36 && forall i :: 0 <= i < 36 ==> if i == 8 || i == 13 || i == 18 || i == 23 then s[i] == '-' else IsHexDigit(s[i])
  }

  /**
   * The refinements of a `z.string()` schema, run in this order: minimum length,
   * maximum length, UUID format (lengths count UTF-16 code units, as `.length` does).
   */
  datatype StringRule = StringRule(min: Option<(nat, Message)>, max: Option<(nat, Message)>, uuid: Option<Message>)

  const AnyString := StringRule(None, None, None)

  function MinLength(n: nat, m: Message): StringRule
  {
    StringRule(Some((n, m)), None, None)
  }

  function LengthBetween(lo: nat, loMessage: Message, hi: nat, hiMessage: Message): StringRule
  {
    StringRule(Some((lo, loMessage)), Some((hi, hiMessage)), None)
  }

  function UuidRule(m: Message): StringRule
  {
    StringRule(None, None, Some(m))
  }

  predicate SatisfiesString(s: string, rule: StringRule)
  {
    (rule.min.None? || Utf16Length(s) >= rule.min.value.0)
    && (rule.max.None? || Utf16Length(s) <= rule.max.value.0)
    && (rule.uuid.None? || IsUuid(s))
  }

  /** A `z.string()` schema with its refinements. */
  function StringOf(v: Value, rule: StringRule): (r: Parsed<string>)
    ensures r.Success? <==> v.Str? && SatisfiesString(v.s, rule)
    ensures r.Success? ==> r.value == v.s
    ensures r.Failure? || r.Success?
    ensures !v.Str? ==> r == Failure(Standard(InvalidType))
    ensures v.Str? && rule.min.Some? && Utf16Length(v.s) < rule.min.value.0 ==> r == Failure(rule.min.value.1)
  {
    if !v.Str? then Failure(Standard(InvalidType))
    else if rule.min.Some? && Utf16Length(v.s) < rule.min.value.0 then Failure(rule.min.value.1)
    else if rule.max.Some? && Utf16Length(v.s) > rule.max.value.0 then Failure(rule.max.value.1)
    else if rule.uuid.Some? && !IsUuid(v.s) then Failure(rule.uuid.value)
    else Success(v.s)
  }

  /**
   * The refinements of a `z.number()` schema, run in this order: integer, positive,
   * upper bound. Every number in these schemas is `.positive()`; its message is
   * `positive` (or the standard one).
   */
  datatype NumberRule = NumberRule(integer: bool, positive: Message, max: Option<real>)

  predicate IsInteger(n: real)
  {
    n.Floor as real == n
  }

  predicate SatisfiesNumber(n: real, rule: NumberRule)
  {
    (!rule.integer || IsInteger(n)) && n > 0.0 && (rule.max.None? || n <= rule.max.value)
  }

  /** A `z.number()` schema with its refinements; `NaN` is not a number to zod. */
  function NumberOf(v: Value, rule: NumberRule): (r: Parsed<real>)
    ensures r.Success? <==> v.Num? && SatisfiesNumber(v.n, rule)
    ensures r.Success? ==> r.value == v.n
    ensures r.Failure? || r.Success?
    ensures v.Num? && (!rule.integer || IsInteger(v.n)) && v.n <= 0.0 ==> r == Failure(rule.positive)
  {
    if !v.Num? then Failure(Standard(InvalidType))
    else if rule.integer && !IsInteger(v.n) then Failure(Standard(NotInteger))
    else if v.n <= 0.0 then Failure(rule.positive)
    else if rule.max.Some? && v.n > rule.max.value then Failure(Standard(TooBig))
    else Success(v.n)
  }

  /** `NumberOf` for an integer rule, giving the integer. */
  function IntegerOf(v: Value, rule: NumberRule): (r: Parsed<int>)
    requires rule.integer
    ensures r.Success? <==> v.Num? && SatisfiesNumber(v.n, rule)
    ensures r.Success? ==> r.value as real == v.n && r.value == v.n.Floor && r.value >= 1
    ensures r.Failure? || r.Success?
  {
    var n :- NumberOf(v, rule);
    Success(n.Floor)
  }

  /** A `z.enum([...])` schema over the spellings `parse` accepts. */
  function EnumOf<E>(v: Value, parse: string -> Option<E>): (r: Parsed<E>)
    ensures r.Success? <==> v.Str? && parse(v.s).Some?
    ensures r.Success? ==> r == Success(parse(v.s).value)
    ensures r.Failure? || r.Success?
  {
    if !v.Str? then Failure(Standard(InvalidType))
    else match parse(v.s)
      case None => Failure(Standard(InvalidEnumValue))
      case Some(e) => Success(e)
  }

  predicate IsStringArray(v: Value)
  {
    v.Arr? && forall i :: 0 <= i < |v.items| ==> v.items[i].Str?
  }

  /** `z.array(z.string())`. */
  function StringsOf(v: Value): (r: Parsed<seq<string>>)
    ensures r.Success? <==> IsStringArray(v)
    ensures r.Success? ==> |r.value| == |v.items| && forall i :: 0 <= i < |v.items| ==> v.items[i] == Str(r.value[i])
    ensures r.Success? ==> r.value == Texts(v)
    ensures r.Failure? || r.Success?
  {
    if !v.Arr? then Failure(Standard(InvalidType))
    else if exists i :: 0 <= i < |v.items| && !v.items[i].Str? then Failure(Standard(InvalidType))
    else Success(seq(|v.items|, i requires 0 <= i < |v.items| => v.items[i].s))
  }

  function BoolOf(v: Value): (r: Parsed<bool>)
    ensures r.Success? <==> v.Bool?
    ensures r.Success? ==> r.value == v.b
    ensures r.Failure? || r.Success?
  {
    if v.Bool? then Success(v.b) else Failure(Standard(InvalidType))
  }

  // ---------------------------------------------------------------------------
  // Keys of an object

  /** A key without `.optional()` or `.default()`: `undefined` is reported as missing. */
  function Required<T>(f: map<string, Value>, key: string, parse: Value -> Parsed<T>): (r: Parsed<T>)
    ensures key !in f ==> r == Failure(Standard(Missing))
    ensures key in f ==> r == parse(f[key])
  {
    if key in f then parse(f[key]) else Failure(Standard(Missing))
  }

  /** A key with `.optional()`: `undefined` is accepted as absent (`null` is not). */
  function Optional<T>(f: map<string, Value>, key: string, parse: Value -> Parsed<T>): (r: Parsed<Option<T>>)
    ensures key !in f ==> r == Success(None)
    ensures key in f ==> (r.Success? <==> parse(f[key]).Success?)
    ensures key in f && r.Success? ==> r.value == Some(parse(f[key]).value)
    ensures key in f && parse(f[key]).Failure? ==> r == Failure(parse(f[key]).message)
  {
    if key !in f then Success(None)
    else
      var x :- parse(f[key]);
      Success(Some(x))
  }

  /** A key with `.default(d)`: `undefined` is replaced by `d` (every default used here satisfies its schema). */
  function WithDefault<T>(f: map<string, Value>, key: string, d: T, parse: Value -> Parsed<T>): (r: Parsed<T>)
    ensures key !in f ==> r == Success(d)
    ensures key in f ==> r == parse(f[key])
  {
    if key in f then parse(f[key]) else Success(d)
  }

  // ---------------------------------------------------------------------------
  // What a key of a valid body carries

  /** The strings of an array of strings, in order. */
  function Texts(v: Value): seq<string>
  {
    if v.Arr? then seq(|v.items|, i requires 0 <= i < |v.items| => if v.items[i].Str? then v.items[i].s else "") else []
  }

  /** The string under `key`; `None` when the key is absent. */
  function TextAt(f: map<string, Value>, key: string): Option<string>
  {
    if key in f && f[key].Str? then Some(f[key].s) else None
  }

  /** The number under `key`; `None` when the key is absent. */
  function NumberAt(f: map<string, Value>, key: string): Option<real>
  {
    if key in f && f[key].Num? then Some(f[key].n) else None
  }

  /** The whole number under `key`; `None` when the key is absent. */
  function IntegerAt(f: map<string, Value>, key: string): Option<int>
  {
    if key in f && f[key].Num? then Some(f[key].n.Floor) else None
  }

  /** The enumeration member spelled under `key`; `None` when the key is absent. */
  function EnumAt<E>(f: map<string, Value>, key: string, parse: string -> Option<E>): Option<E>
  {
    if key in f && f[key].Str? then parse(f[key].s) else None
  }

  /** The strings of the array under `key`; `None` when the key is absent. */
  function TextsAt(f: map<string, Value>, key: string): Option<seq<string>>
  {
    if key in f then Some(Texts(f[key])) else None
  }

  /** `o`, or the default `d` in a complete body, where `.default(d)` fills in an absent key. */
  function OrDefault<T>(o: Option<T>, d: T, partial: bool): Option<T>
  {
    if o.None? && !partial then Some(d) else o
  }

  // ---------------------------------------------------------------------------
  // Offers

  /** The data of `createOfferSchema`. */
  datatype OfferBody = OfferBody(adId: string, priceOffered: real, quantity: int, message: Option<string>)

  const AdIdRule := UuidRule(Custom("ID annonce invalide"))
  const PriceOfferedRule := NumberRule(false, Custom("Prix offert doit être positif"), None)
  const OfferQuantityRule := NumberRule(true, Custom("Quantité doit être positive"), None)

  /** An offer body: a UUID `ad_id`, a positive `price_offered`, a positive integer `quantity`, an optional string `message`. */
  predicate OfferBodyValid(v: Value)
  {
    v.Obj?
    && "ad_id" in v.fields && v.fields["ad_id"].Str? && IsUuid(v.fields["ad_id"].s)
    && "price_offered" in v.fields && v.fields["price_offered"].Num? && v.fields["price_offered"].n > 0.0
    && "quantity" in v.fields && v.fields["quantity"].Num? && IsInteger(v.fields["quantity"].n) && v.fields["quantity"].n > 0.0
    && ("message" !in v.fields || v.fields["message"].Str?)
  }

  /** `createOfferSchema.parse`. */
  function ParseCreateOffer(v: Value): (r: Parsed<OfferBody>)
    ensures r.Success? <==> OfferBodyValid(v)
    ensures r.Success? ==>
      && r.value.adId == v.fields["ad_id"].s
      && r.value.priceOffered == v.fields["price_offered"].n
      && r.value.quantity as real == v.fields["quantity"].n
      && r.value.message == (if "message" in v.fields then Some(v.fields["message"].s) else None)
    ensures !r.Crashed?
    ensures !v.Obj? ==> r == Failure(Standard(InvalidType))
    ensures v.Obj? && "ad_id" in v.fields && v.fields["ad_id"].Str? && !IsUuid(v.fields["ad_id"].s)
      ==> r == Failure(Custom("ID annonce invalide"))
  {
    if !v.Obj? then Failure(Standard(InvalidType))
    else
      var f := v.fields;
      var adId :- Required(f, "ad_id", x => StringOf(x, AdIdRule));
      var price :- Required(f, "price_offered", x => NumberOf(x, PriceOfferedRule));
      var quantity :- Required(f, "quantity", x => IntegerOf(x, OfferQuantityRule));
      var message :- Optional(f, "message", x => StringOf(x, AnyString));
      Success(OfferBody(adId, price, quantity, message))
  }

  /** The data of `updateOfferSchema`. */
  datatype OfferDecision = OfferDecision(status: OfferStatus, sellerResponse: Option<string>)

  /** The statuses an offer update may name: `accepted`, `rejected`, `cancelled`. */
  function ParseOfferDecisionStatus(s: string): (r: Option<OfferStatus>)
    ensures r.Some? ==> r.value != OfferPending && OfferStatusName(r.value) == s
    ensures r.None? <==> s !in {"accepted", "rejected", "cancelled"}
  {
    match ParseOfferStatus(s)
    case Some(OfferPending) => None
    case other => other
  }

  /** `updateOfferSchema.parse`: the status may only be a decision, never `pending`. */
  function ParseUpdateOffer(v: Value): (r: Parsed<OfferDecision>)
    ensures r.Success? <==>
      && v.Obj?
      && "status" in v.fields && v.fields["status"].Str?
      && v.fields["status"].s in {"accepted", "rejected", "cancelled"}
      && ("seller_response" !in v.fields || v.fields["seller_response"].Str?)
    ensures r.Success? ==> r.value.status != OfferPending && OfferStatusName(r.value.status) == v.fields["status"].s
    ensures r.Success? ==> r.value.sellerResponse == TextAt(v.fields, "seller_response")
    ensures !r.Crashed?
  {
    if !v.Obj? then Failure(Standard(InvalidType))
    else
      var f := v.fields;
      var status :- Required(f, "status", x => EnumOf(x, ParseOfferDecisionStatus));
      var response :- Optional(f, "seller_response", x => StringOf(x, AnyString));
      Success(OfferDecision(status, response))
  }

  // ---------------------------------------------------------------------------
  // Orders and claims

  /** `updateOrderStatusSchema.parse`: any of the eight order statuses. */
  function ParseUpdateOrderStatus(v: Value): (r: Parsed<OrderStatus>)
    ensures r.Success? <==> v.Obj? && "status" in v.fields && v.fields["status"].Str? && ParseOrderStatus(v.fields["status"].s).Some?
    ensures r.Success? ==> OrderStatusName(r.value) == v.fields["status"].s
    ensures !r.Crashed?
  {
    if !v.Obj? then Failure(Standard(InvalidType))
    else Required(v.fields, "status", x => EnumOf(x, ParseOrderStatus))
  }

  /** The data of `createClaimSchema`. */
  datatype ClaimBody = ClaimBody(orderId: string, claimType: ClaimType, subject: string, description: string, photos: seq<string>)

  const OrderIdRule := UuidRule(Custom("ID commande invalide"))
  const SubjectRule := LengthBetween(3, Custom("Sujet trop court"), 255, Custom("Sujet trop long"))
  const DescriptionRule := MinLength(10, Custom("Description trop courte"))

  /**
   * A claim body: a UUID `order_id`, a claim type, a subject of 3 to 255 characters,
   * a description of at least 10 characters, and optionally an array of strings.
   */
  predicate ClaimBodyValid(v: Value)
  {
    && v.Obj?
    && "order_id" in v.fields && v.fields["order_id"].Str? && IsUuid(v.fields["order_id"].s)
    && "type" in v.fields && v.fields["type"].Str? && ParseClaimType(v.fields["type"].s).Some?
    && "subject" in v.fields && v.fields["subject"].Str? && 3 <= Utf16Length(v.fields["subject"].s) <= 255
    && "description" in v.fields && v.fields["description"].Str? && Utf16Length(v.fields["description"].s) >= 10
    && ("photos" !in v.fields || IsStringArray(v.fields["photos"]))
  }

  /** `createClaimSchema.parse`: `photos` defaults to the empty list. */
  function ParseCreateClaim(v: Value): (r: Parsed<ClaimBody>)
    ensures r.Success? <==> ClaimBodyValid(v)
    ensures r.Success? ==>
      && r.value.orderId == v.fields["order_id"].s
      && ClaimTypeName(r.value.claimType) == v.fields["type"].s
      && r.value.subject == v.fields["subject"].s
      && r.value.description == v.fields["description"].s
      && ("photos" !in v.fields ==> r.value.photos == [])
      && ("photos" in v.fields ==> r.value.photos == Texts(v.fields["photos"]))
    ensures !r.Crashed?
  {
    if !v.Obj? then Failure(Standard(InvalidType))
    else
      var f := v.fields;
      var orderId :- Required(f, "order_id", x => StringOf(x, OrderIdRule));
      var claimType :- Required(f, "type", x => EnumOf(x, ParseClaimType));
      var subject :- Required(f, "subject", x => StringOf(x, SubjectRule));
      var description :- Required(f, "description", x => StringOf(x, DescriptionRule));
      var photos :- WithDefault(f, "photos", [], StringsOf);
      Success(ClaimBody(orderId, claimType, subject, description, photos))
  }

  // ---------------------------------------------------------------------------
  // Users

  predicate AddressValid(v: Value)
  {
    && v.Obj?
    && "street" in v.fields && v.fields["street"].Str? && Utf16Length(v.fields["street"].s) >= 1
    && "city" in v.fields && v.fields["city"].Str? && Utf16Length(v.fields["city"].s) >= 1
    && "postal_code" in v.fields && v.fields["postal_code"].Str? && Utf16Length(v.fields["postal_code"].s) >= 1
    && "country" in v.fields && v.fields["country"].Str? && Utf16Length(v.fields["country"].s) >= 1
    && ("additional_info" !in v.fields || v.fields["additional_info"].Str?)
  }

  /** `addressSchema.parse`: four non-empty strings and an optional complement. */
  function ParseAddress(v: Value): (r: Parsed<Address>)
    ensures r.Success? <==> AddressValid(v)
    ensures r.Success? ==>
      && r.value.street == v.fields["street"].s
      && r.value.city == v.fields["city"].s
      && r.value.postalCode == v.fields["postal_code"].s
      && r.value.country == v.fields["country"].s
      && r.value.additionalInfo == (if "additional_info" in v.fields then Some(v.fields["additional_info"].s) else None)
    ensures !r.Crashed?
  {
    if !v.Obj? then Failure(Standard(InvalidType))
    else
      var f := v.fields;
      var street :- Required(f, "street", x => StringOf(x, MinLength(1, Custom("Rue requise"))));
      var city :- Required(f, "city", x => StringOf(x, MinLength(1, Custom("Ville requise"))));
      var postalCode :- Required(f, "postal_code", x => StringOf(x, MinLength(1, Custom("Code postal requis"))));
      var country :- Required(f, "country", x => StringOf(x, MinLength(1, Custom("Pays requis"))));
      var additionalInfo :- Optional(f, "additional_info", x => StringOf(x, AnyString));
      Success(Address(street, city, postalCode, country, additionalInfo))
  }

  /** The data of `registerUserSchema`. */
  datatype Registration = Registration(
    email: string,
    password: string,
    firstname: string,
    lastname: string,
    tel: string,
    isOnlyBuyer: bool,
    companyName: Option<string>,
    companyType: Option<string>,
    siret: Option<string>,
    vatNumber: Option<string>)

  predicate OptionalStringAt(f: map<string, Value>, key: string)
  {
    key !in f || f[key].Str?
  }

  /**
   * A registration body. zod's e-mail pattern is not spelled out here: `isEmail` stands
   * for it.
   */
  predicate RegistrationValid(v: Value, isEmail: string -> bool)
  {
    && v.Obj?
    && "email" in v.fields && v.fields["email"].Str? && isEmail(v.fields["email"].s)
    && "password" in v.fields && v.fields["password"].Str? && Utf16Length(v.fields["password"].s) >= 8
    && "firstname" in v.fields && v.fields["firstname"].Str? && Utf16Length(v.fields["firstname"].s) >= 1
    && "lastname" in v.fields && v.fields["lastname"].Str? && Utf16Length(v.fields["lastname"].s) >= 1
    && "tel" in v.fields && v.fields["tel"].Str? && Utf16Length(v.fields["tel"].s) >= 10
    && ("is_only_buyer" !in v.fields || v.fields["is_only_buyer"].Bool?)
    && OptionalStringAt(v.fields, "company_name")
    && OptionalStringAt(v.fields, "company_type")
    && OptionalStringAt(v.fields, "siret")
    && OptionalStringAt(v.fields, "vat_number")
  }

  /** `z.string().email(m)`. */
  function EmailOf(v: Value, isEmail: string -> bool, m: Message): (r: Parsed<string>)
    ensures r.Success? <==> v.Str? && isEmail(v.s)
    ensures r.Success? ==> r.value == v.s
    ensures r.Failure? || r.Success?
  {
    if !v.Str? then Failure(Standard(InvalidType))
    else if !isEmail(v.s) then Failure(m)
    else Success(v.s)
  }

  /** `registerUserSchema.parse`: `is_only_buyer` defaults to `false`. */
  function ParseRegistration(v: Value, isEmail: string -> bool): (r: Parsed<Registration>)
    ensures r.Success? <==> RegistrationValid(v, isEmail)
    ensures r.Success? ==>
      && r.value.email == v.fields["email"].s
      && r.value.password == v.fields["password"].s
      && r.value.firstname == v.fields["firstname"].s
      && r.value.lastname == v.fields["lastname"].s
      && r.value.tel == v.fields["tel"].s
      && r.value.isOnlyBuyer == ("is_only_buyer" in v.fields && v.fields["is_only_buyer"].b)
      && r.value.companyName == TextAt(v.fields, "company_name")
      && r.value.companyType == TextAt(v.fields, "company_type")
      && r.value.siret == TextAt(v.fields, "siret")
      && r.value.vatNumber == TextAt(v.fields, "vat_number")
    ensures !r.Crashed?
  {
    if !v.Obj? then Failure(Standard(InvalidType))
    else
      var f := v.fields;
      var email :- Required(f, "email", x => EmailOf(x, isEmail, Custom("Email invalide")));
      var password :- Required(f, "password", x => StringOf(x, MinLength(8, Custom("Le mot de passe doit contenir au moins 8 caractères"))));
      var firstname :- Required(f, "firstname", x => StringOf(x, MinLength(1, Custom("Prénom requis"))));
      var lastname :- Required(f, "lastname", x => StringOf(x, MinLength(1, Custom("Nom requis"))));
      var tel :- Required(f, "tel", x => StringOf(x, MinLength(10, Custom("Numéro de téléphone invalide"))));
      var isOnlyBuyer :- WithDefault(f, "is_only_buyer", false, BoolOf);
      var companyName :- Optional(f, "company_name", x => StringOf(x, AnyString));
      var companyType :- Optional(f, "company_type", x => StringOf(x, AnyString));
      var siret :- Optional(f, "siret", x => StringOf(x, AnyString));
      var vatNumber :- Optional(f, "vat_number", x => StringOf(x, AnyString));
      Success(Registration(email, password, firstname, lastname, tel, isOnlyBuyer, companyName, companyType, siret, vatNumber))
  }

  /** The data of `updateUserSchema`: every key may be absent. */
  datatype UserPatch = UserPatch(
    firstname: Option<string>,
    lastname: Option<string>,
    tel: Option<string>,
    companyName: Option<string>,
    companyType: Option<string>,
    siret: Option<string>,
    vatNumber: Option<string>,
    billingAddress: Option<Address>,
    shippingAddress: Option<Address>,
    profilePicture: Option<string>)

  predicate UserPatchValid(v: Value)
  {
    && v.Obj?
    && ("firstname" !in v.fields || (v.fields["firstname"].Str? && Utf16Length(v.fields["firstname"].s) >= 1))
    && ("lastname" !in v.fields || (v.fields["lastname"].Str? && Utf16Length(v.fields["lastname"].s) >= 1))
    && ("tel" !in v.fields || (v.fields["tel"].Str? && Utf16Length(v.fields["tel"].s) >= 10))
    && OptionalStringAt(v.fields, "company_name")
    && OptionalStringAt(v.fields, "company_type")
    && OptionalStringAt(v.fields, "siret")
    && OptionalStringAt(v.fields, "vat_number")
    && ("billing_address" !in v.fields || AddressValid(v.fields["billing_address"]))
    && ("shipping_address" !in v.fields || AddressValid(v.fields["shipping_address"]))
    && OptionalStringAt(v.fields, "profile_picture")
  }

  /** `updateUserSchema.parse`: every key is optional, and the empty object is a valid update. */
  function ParseUserPatch(v: Value): (r: Parsed<UserPatch>)
    ensures r.Success? <==> UserPatchValid(v)
    ensures v == Obj(map[]) ==> r == Success(UserPatch(None, None, None, None, None, None, None, None, None, None))
    ensures r.Success? ==>
      && r.value.firstname == TextAt(v.fields, "firstname")
      && r.value.lastname == TextAt(v.fields, "lastname")
      && r.value.tel == TextAt(v.fields, "tel")
      && r.value.companyName == TextAt(v.fields, "company_name")
      && r.value.companyType == TextAt(v.fields, "company_type")
      && r.value.siret == TextAt(v.fields, "siret")
      && r.value.vatNumber == TextAt(v.fields, "vat_number")
      && r.value.billingAddress == (if "billing_address" in v.fields then Some(ParseAddress(v.fields["billing_address"]).value) else None)
      && r.value.shippingAddress == (if "shipping_address" in v.fields then Some(ParseAddress(v.fields["shipping_address"]).value) else None)
      && r.value.profilePicture == TextAt(v.fields, "profile_picture")
    ensures !r.Crashed?
  {
    if !v.Obj? then Failure(Standard(InvalidType))
    else
      var f := v.fields;
      var firstname :- Optional(f, "firstname", x => StringOf(x, MinLength(1, Standard(TooSmall))));
      var lastname :- Optional(f, "lastname", x => StringOf(x, MinLength(1, Standard(TooSmall))));
      var tel :- Optional(f, "tel", x => StringOf(x, MinLength(10, Standard(TooSmall))));
      var companyName :- Optional(f, "company_name", x => StringOf(x, AnyString));
      var companyType :- Optional(f, "company_type", x => StringOf(x, AnyString));
      var siret :- Optional(f, "siret", x => StringOf(x, AnyString));
      var vatNumber :- Optional(f, "vat_number", x => StringOf(x, AnyString));
      var billing :- Optional(f, "billing_address", ParseAddress);
      var shipping :- Optional(f, "shipping_address", ParseAddress);
      var picture :- Optional(f, "profile_picture", x => StringOf(x, AnyString));
      Success(UserPatch(firstname, lastname, tel, companyName, companyType, siret, vatNumber, billing, shipping, picture))
  }

  // ---------------------------------------------------------------------------
  // Ads

  /** The key is present and its value satisfies `ok`. */
  predicate Has(f: map<string, Value>, key: string, ok: Value -> bool)
  {
    key in f && ok(f[key])
  }

  /** The key is absent or its value satisfies `ok`. */
  predicate MayHave(f: map<string, Value>, key: string, ok: Value -> bool)
  {
    key !in f || ok(f[key])
  }

  /** `Has` for a key a complete body must carry, `MayHave` for it in a partial one. */
  predicate Slot(f: map<string, Value>, key: string, ok: Value -> bool, complete: bool)
  {
    if complete then Has(f, key, ok) else MayHave(f, key, ok)
  }

  predicate IsText(x: Value)
  {
    x.Str?
  }

  predicate IsTitle(x: Value)
  {
    x.Str? && 3 <= Utf16Length(x.s) <= 255
  }

  predicate IsPositive(x: Value)
  {
    x.Num? && x.n > 0.0
  }

  predicate IsPositiveInteger(x: Value)
  {
    x.Num? && x.n > 0.0 && IsInteger(x.n)
  }

  predicate IsAdType(x: Value)
  {
    x.Str? && ParseAdType(x.s).Some?
  }

  predicate IsMerchandiseType(x: Value)
  {
    x.Str? && ParseMerchandiseType(x.s).Some?
  }

  predicate IsAvailability(x: Value)
  {
    x.Str? && ParseAvailability(x.s).Some?
  }

  predicate IsCategory(x: Value)
  {
    x.Str? && ParseCategory(x.s).Some?
  }

  /**
   * The keys of an ad body: `complete` for `createAdSchema`, where the keys without
   * `.optional()` or `.default()` must be present; not `complete` for `updateAdSchema`,
   * where every key may be absent. The keys come in three runs, in declaration order.
   */
  predicate AdKeysValid(f: map<string, Value>, complete: bool)
  {
    AdHeadValid(f, complete) && AdPricesValid(f, complete) && AdTailValid(f, complete)
  }

  predicate AdHeadValid(f: map<string, Value>, complete: bool)
  {
    && Slot(f, "title", IsTitle, complete)
    && MayHave(f, "other_info", IsText)
    && MayHave(f, "photos", IsStringArray)
    && Slot(f, "type", IsAdType, complete)
    && MayHave(f, "auction_duration", IsText)
    && Slot(f, "merchandise_type", IsMerchandiseType, complete)
  }

  predicate AdPricesValid(f: map<string, Value>, complete: bool)
  {
    && MayHave(f, "weight", IsPositive)
    && MayHave(f, "dlc_ddm", IsText)
    && MayHave(f, "availability", IsAvailability)
    && Slot(f, "unit_price", IsPositive, complete)
    && Slot(f, "total_price", IsPositive, complete)
    && MayHave(f, "advised_unit_price_min", IsPositive)
    && MayHave(f, "advised_unit_price_max", IsPositive)
  }

  predicate AdTailValid(f: map<string, Value>, complete: bool)
  {
    && Slot(f, "unit_quantity", IsPositiveInteger, complete)
    && Slot(f, "total_quantity", IsPositiveInteger, complete)
    && MayHave(f, "nb_palets", IsPositiveInteger)
    && MayHave(f, "listing_file", IsText)
    && MayHave(f, "additional_files", IsStringArray)
    && Slot(f, "category", IsCategory, complete)
  }

  /** An ad body for `createAdSchema`. */
  predicate AdBodyValid(v: Value)
  {
    v.Obj? && AdKeysValid(v.fields, true)
  }

  /** An ad body for `updateAdSchema`. */
  predicate AdPatchValid(v: Value)
  {
    v.Obj? && AdKeysValid(v.fields, false)
  }

  /** The data of `updateAdSchema`: the author's columns of an ad, each possibly absent. */
  datatype AdPatch = AdPatch(
    title: Option<string>,
    otherInfo: Option<string>,
    photos: Option<seq<string>>,
    adType: Option<AdType>,
    auctionDuration: Option<string>,
    merchandiseType: Option<MerchandiseType>,
    weight: Option<real>,
    dlcDdm: Option<string>,
    availability: Option<Availability>,
    unitPrice: Option<real>,
    totalPrice: Option<real>,
    advisedUnitPriceMin: Option<real>,
    advisedUnitPriceMax: Option<real>,
    unitQuantity: Option<int>,
    totalQuantity: Option<int>,
    nbPalets: Option<int>,
    listingFile: Option<string>,
    additionalFiles: Option<seq<string>>,
    category: Option<Category>)
  {
    /** Every key `createAdSchema` requires or defaults is there. */
    predicate Complete()
    {
      && title.Some? && photos.Some? && adType.Some? && merchandiseType.Some? && availability.Some?
      && unitPrice.Some? && totalPrice.Some? && unitQuantity.Some? && totalQuantity.Some?
      && additionalFiles.Some? && category.Some?
    }
  }

  /** A key that a complete body must carry (`Required`), or that a partial body may omit (`Optional`). */
  function Key<T>(f: map<string, Value>, key: string, parse: Value -> Parsed<T>, partial: bool): (r: Parsed<Option<T>>)
    ensures partial ==> r == Optional(f, key, parse)
    ensures !partial && key !in f ==> r == Failure(Standard(Missing))
    ensures !partial && key in f ==> (r.Success? <==> parse(f[key]).Success?)
    ensures !partial && key in f && r.Success? ==> r.value == Some(parse(f[key]).value)
    ensures !partial && key in f && parse(f[key]).Failure? ==> r == Failure(parse(f[key]).message)
  {
    if partial then Optional(f, key, parse)
    else
      var x :- Required(f, key, parse);
      Success(Some(x))
  }

  /** A key with a default that a partial body leaves absent: `.partial()` wraps the default in `.optional()`, which skips it. */
  function KeyWithDefault<T>(f: map<string, Value>, key: string, d: T, parse: Value -> Parsed<T>, partial: bool): (r: Parsed<Option<T>>)
    ensures partial ==> r == Optional(f, key, parse)
    ensures !partial && key !in f ==> r == Success(Some(d))
    ensures !partial && key in f ==> (r.Success? <==> parse(f[key]).Success?)
    ensures !partial && key in f && r.Success? ==> r.value == Some(parse(f[key]).value)
    ensures !partial && key in f && parse(f[key]).Failure? ==> r == Failure(parse(f[key]).message)
  {
    if partial then Optional(f, key, parse)
    else
      var x :- WithDefault(f, key, d, parse);
      Success(Some(x))
  }

  const TitleRule := LengthBetween(3, Custom("Titre trop court"), 255, Custom("Titre trop long"))
  const UnitPriceRule := NumberRule(false, Custom("Prix unitaire doit être positif"), None)
  const TotalPriceRule := NumberRule(false, Custom("Prix total doit être positif"), None)
  const UnitQuantityRule := NumberRule(true, Custom("Quantité unitaire doit être positive"), None)
  const TotalQuantityRule := NumberRule(true, Custom("Quantité totale doit être positive"), None)
  const PositiveRule := NumberRule(false, Standard(TooSmall), None)
  const PositiveIntegerRule := NumberRule(true, Standard(TooSmall), None)

  /** The first run of keys of an ad body: what it is. */
  datatype AdHead = AdHead(
    title: Option<string>,
    otherInfo: Option<string>,
    photos: Option<seq<string>>,
    adType: Option<AdType>,
    auctionDuration: Option<string>,
    merchandiseType: Option<MerchandiseType>)

  /** The second run: weight, dates and prices. */
  datatype AdPrices = AdPrices(
    weight: Option<real>,
    dlcDdm: Option<string>,
    availability: Option<Availability>,
    unitPrice: Option<real>,
    totalPrice: Option<real>,
    advisedUnitPriceMin: Option<real>,
    advisedUnitPriceMax: Option<real>)

  /** The last run: quantities, files and category. */
  datatype AdTail = AdTail(
    unitQuantity: Option<int>,
    totalQuantity: Option<int>,
    nbPalets: Option<int>,
    listingFile: Option<string>,
    additionalFiles: Option<seq<string>>,
    category: Option<Category>)

  function ParseAdHead(f: map<string, Value>, partial: bool): (r: Parsed<AdHead>)
    ensures r.Success? <==> AdHeadValid(f, !partial)
    ensures !partial && r.Success? ==>
      r.value.title.Some? && r.value.photos.Some? && r.value.adType.Some? && r.value.merchandiseType.Some?
    ensures r.Success? && "title" in f ==> r.value.title == Some(f["title"].s)
    ensures r.Success? && "photos" !in f ==> r.value.photos == if partial then None else Some([])
    ensures r.Success? ==> r.value == AdHead(
      TextAt(f, "title"), TextAt(f, "other_info"), OrDefault(TextsAt(f, "photos"), [], partial),
      EnumAt(f, "type", ParseAdType), TextAt(f, "auction_duration"), EnumAt(f, "merchandise_type", ParseMerchandiseType))
    ensures !r.Crashed?
  {
    var title :- Key(f, "title", x => StringOf(x, TitleRule), partial);
    var otherInfo :- Optional(f, "other_info", x => StringOf(x, AnyString));
    var photos :- KeyWithDefault(f, "photos", [], StringsOf, partial);
    var adType :- Key(f, "type", x => EnumOf(x, ParseAdType), partial);
    var auctionDuration :- Optional(f, "auction_duration", x => StringOf(x, AnyString));
    var merchandiseType :- Key(f, "merchandise_type", x => EnumOf(x, ParseMerchandiseType), partial);
    Success(AdHead(title, otherInfo, photos, adType, auctionDuration, merchandiseType))
  }

  function ParseAdPrices(f: map<string, Value>, partial: bool): (r: Parsed<AdPrices>)
    ensures r.Success? <==> AdPricesValid(f, !partial)
    ensures !partial && r.Success? ==>
      r.value.availability.Some? && r.value.unitPrice.Some? && r.value.totalPrice.Some?
    ensures r.Success? && "unit_price" in f ==> r.value.unitPrice == Some(f["unit_price"].n)
    ensures r.Success? && "availability" !in f ==> r.value.availability == if partial then None else Some(Immediate)
    ensures r.Success? ==> r.value == AdPrices(
      NumberAt(f, "weight"), TextAt(f, "dlc_ddm"), OrDefault(EnumAt(f, "availability", ParseAvailability), Immediate, partial),
      NumberAt(f, "unit_price"), NumberAt(f, "total_price"), NumberAt(f, "advised_unit_price_min"), NumberAt(f, "advised_unit_price_max"))
    ensures !r.Crashed?
  {
    var weight :- Optional(f, "weight", x => NumberOf(x, PositiveRule));
    var dlcDdm :- Optional(f, "dlc_ddm", x => StringOf(x, AnyString));
    var availability :- KeyWithDefault(f, "availability", Immediate, x => EnumOf(x, ParseAvailability), partial);
    var unitPrice :- Key(f, "unit_price", x => NumberOf(x, UnitPriceRule), partial);
    var totalPrice :- Key(f, "total_price", x => NumberOf(x, TotalPriceRule), partial);
    var advisedMin :- Optional(f, "advised_unit_price_min", x => NumberOf(x, PositiveRule));
    var advisedMax :- Optional(f, "advised_unit_price_max", x => NumberOf(x, PositiveRule));
    Success(AdPrices(weight, dlcDdm, availability, unitPrice, totalPrice, advisedMin, advisedMax))
  }

  function ParseAdTail(f: map<string, Value>, partial: bool): (r: Parsed<AdTail>)
    ensures r.Success? <==> AdTailValid(f, !partial)
    ensures !partial && r.Success? ==>
      r.value.unitQuantity.Some? && r.value.totalQuantity.Some? && r.value.additionalFiles.Some? && r.value.category.Some?
    ensures r.Success? && "total_quantity" in f ==> r.value.totalQuantity.Some? && r.value.totalQuantity.value as real == f["total_quantity"].n
    ensures r.Success? && "additional_files" !in f ==> r.value.additionalFiles == if partial then None else Some([])
    ensures r.Success? ==> r.value == AdTail(
      IntegerAt(f, "unit_quantity"), IntegerAt(f, "total_quantity"), IntegerAt(f, "nb_palets"), TextAt(f, "listing_file"),
      OrDefault(TextsAt(f, "additional_files"), [], partial), EnumAt(f, "category", ParseCategory))
    ensures !r.Crashed?
  {
    var unitQuantity :- Key(f, "unit_quantity", x => IntegerOf(x, UnitQuantityRule), partial);
    var totalQuantity :- Key(f, "total_quantity", x => IntegerOf(x, TotalQuantityRule), partial);
    var nbPalets :- Optional(f, "nb_palets", x => IntegerOf(x, PositiveIntegerRule));
    var listingFile :- Optional(f, "listing_file", x => StringOf(x, AnyString));
    var additionalFiles :- KeyWithDefault(f, "additional_files", [], StringsOf, partial);
    var category :- Key(f, "category", x => EnumOf(x, ParseCategory), partial);
    Success(AdTail(unitQuantity, totalQuantity, nbPalets, listingFile, additionalFiles, category))
  }

  /** The keys of an ad body, in declaration order, for `createAdSchema` (`partial` false) or `updateAdSchema`. */
  function ParseAdKeys(f: map<string, Value>, partial: bool): (r: Parsed<AdPatch>)
    ensures r.Success? <==> AdKeysValid(f, !partial)
    ensures !partial && r.Success? ==> r.value.Complete()
    ensures r.Success? && "title" in f ==> r.value.title == Some(f["title"].s)
    ensures r.Success? && "photos" !in f ==> r.value.photos == if partial then None else Some([])
    ensures r.Success? && "unit_price" in f ==> r.value.unitPrice == Some(f["unit_price"].n)
    ensures r.Success? && "availability" !in f ==> r.value.availability == if partial then None else Some(Immediate)
    ensures r.Success? && "total_quantity" in f ==> r.value.totalQuantity.Some? && r.value.totalQuantity.value as real == f["total_quantity"].n
    ensures r.Success? && "additional_files" !in f ==> r.value.additionalFiles == if partial then None else Some([])
    ensures r.Success? ==> r.value == ReadAdKeys(f, partial)
    ensures !r.Crashed?
  {
    var h :- ParseAdHead(f, partial);
    var p :- ParseAdPrices(f, partial);
    var t :- ParseAdTail(f, partial);
    Success(AdPatch(h.title, h.otherInfo, h.photos, h.adType, h.auctionDuration, h.merchandiseType,
                    p.weight, p.dlcDdm, p.availability, p.unitPrice, p.totalPrice, p.advisedUnitPriceMin,
                    p.advisedUnitPriceMax, t.unitQuantity, t.totalQuantity, t.nbPalets, t.listingFile,
                    t.additionalFiles, t.category))
  }

  /** What a valid ad body carries under each key, with `.default` filled in when the body is complete. */
  function ReadAdKeys(f: map<string, Value>, partial: bool): AdPatch
  {
    AdPatch(
      TextAt(f, "title"), TextAt(f, "other_info"), OrDefault(TextsAt(f, "photos"), [], partial),
      EnumAt(f, "type", ParseAdType), TextAt(f, "auction_duration"), EnumAt(f, "merchandise_type", ParseMerchandiseType),
      NumberAt(f, "weight"), TextAt(f, "dlc_ddm"), OrDefault(EnumAt(f, "availability", ParseAvailability), Immediate, partial),
      NumberAt(f, "unit_price"), NumberAt(f, "total_price"), NumberAt(f, "advised_unit_price_min"), NumberAt(f, "advised_unit_price_max"),
      IntegerAt(f, "unit_quantity"), IntegerAt(f, "total_quantity"), IntegerAt(f, "nb_palets"), TextAt(f, "listing_file"),
      OrDefault(TextsAt(f, "additional_files"), [], partial), EnumAt(f, "category", ParseCategory))
  }

  /** `createAdSchema.parse`: the author's columns, with `photos` and `additional_files` defaulting to `[]` and `availability` to `Immediate`. */
  function ParseCreateAd(v: Value): (r: Parsed<AdFields>)
    ensures r.Success? <==> AdBodyValid(v)
    ensures r.Success? ==>
      && r.value.title == v.fields["title"].s
      && 3 <= Utf16Length(r.value.title) <= 255
      && r.value.unitPrice == v.fields["unit_price"].n && r.value.unitPrice > 0.0
      && r.value.totalQuantity as real == v.fields["total_quantity"].n && r.value.totalQuantity >= 1
      && ("photos" !in v.fields ==> r.value.photos == [])
      && ("additional_files" !in v.fields ==> r.value.additionalFiles == [])
      && ("availability" !in v.fields ==> r.value.availability == Immediate)
    ensures r.Success? ==>
      && Some(r.value.title) == TextAt(v.fields, "title")
      && r.value.otherInfo == TextAt(v.fields, "other_info")
      && r.value.photos == (if "photos" in v.fields then Texts(v.fields["photos"]) else [])
      && Some(r.value.adType) == EnumAt(v.fields, "type", ParseAdType)
      && r.value.auctionDuration == TextAt(v.fields, "auction_duration")
      && Some(r.value.merchandiseType) == EnumAt(v.fields, "merchandise_type", ParseMerchandiseType)
      && r.value.weight == NumberAt(v.fields, "weight")
      && r.value.dlcDdm == TextAt(v.fields, "dlc_ddm")
      && r.value.availability == (if "availability" in v.fields then ParseAvailability(v.fields["availability"].s).value else Immediate)
      && Some(r.value.unitPrice) == NumberAt(v.fields, "unit_price")
      && Some(r.value.totalPrice) == NumberAt(v.fields, "total_price")
      && r.value.advisedUnitPriceMin == NumberAt(v.fields, "advised_unit_price_min")
      && r.value.advisedUnitPriceMax == NumberAt(v.fields, "advised_unit_price_max")
      && Some(r.value.unitQuantity) == IntegerAt(v.fields, "unit_quantity")
      && Some(r.value.totalQuantity) == IntegerAt(v.fields, "total_quantity")
      && r.value.nbPalets == IntegerAt(v.fields, "nb_palets")
      && r.value.listingFile == TextAt(v.fields, "listing_file")
      && r.value.additionalFiles == (if "additional_files" in v.fields then Texts(v.fields["additional_files"]) else [])
      && Some(r.value.category) == EnumAt(v.fields, "category", ParseCategory)
    ensures !r.Crashed?
  {
    if !v.Obj? then Failure(Standard(InvalidType))
    else
      var p :- ParseAdKeys(v.fields, false);
      Success(AdFields(
        p.title.value, p.otherInfo, p.photos.value, p.adType.value, p.auctionDuration, p.merchandiseType.value,
        p.weight, p.dlcDdm, p.availability.value, p.unitPrice.value, p.totalPrice.value, p.advisedUnitPriceMin,
        p.advisedUnitPriceMax, p.unitQuantity.value, p.totalQuantity.value, p.nbPalets, p.listingFile,
        p.additionalFiles.value, p.category.value))
  }

  /** `updateAdSchema.parse` (`createAdSchema.partial()`): every key optional, no default filled in. */
  function ParseUpdateAd(v: Value): (r: Parsed<AdPatch>)
    ensures r.Success? <==> AdPatchValid(v)
    ensures r.Success? ==>
      && ("photos" !in v.fields ==> r.value.photos.None?)
      && ("additional_files" !in v.fields ==> r.value.additionalFiles.None?)
      && ("availability" !in v.fields ==> r.value.availability.None?)
    ensures r.Success? ==> r.value == ReadAdKeys(v.fields, true)
    ensures !r.Crashed?
  {
    if !v.Obj? then Failure(Standard(InvalidType))
    else ParseAdKeys(v.fields, true)
  }

  /** Every body `createAdSchema` accepts, `updateAdSchema` accepts too; and the latter accepts the empty object. */
  lemma CreateAdBodyIsUpdate(v: Value)
    ensures ParseCreateAd(v).Success? ==> ParseUpdateAd(v).Success?
    ensures ParseUpdateAd(Obj(map[])).Success?
  {
    if ParseCreateAd(v).Success? {
      CompleteKeysArePartial(v.fields);
    }
    assert AdKeysValid(map[], false);
  }

  /** Keys valid for a complete body are valid for a partial one. */
  lemma CompleteKeysArePartial(f: map<string, Value>)
    requires AdKeysValid(f, true)
    ensures AdKeysValid(f, false)
  {
    assert AdHeadValid(f, false);
    assert AdPricesValid(f, false);
    assert AdTailValid(f, false);
  }

  // ---------------------------------------------------------------------------
  // Search

  /** The data of `searchAdsSchema`. */
  datatype SearchQuery = SearchQuery(
    category: Option<string>,
    adType: Option<AdType>,
    minPrice: Option<real>,
    maxPrice: Option<real>,
    search: Option<string>,
    page: int,
    limit: int)

  const LimitRule := NumberRule(true, Standard(TooSmall), Some(100.0))

  predicate IsPage(x: Value)
  {
    x.Num? && IsInteger(x.n) && x.n > 0.0
  }

  predicate IsLimit(x: Value)
  {
    x.Num? && IsInteger(x.n) && 0.0 < x.n <= 100.0
  }

  /** A search query: optional filters, a positive integer page and a positive integer limit of at most 100. */
  predicate SearchValid(v: Value)
  {
    && v.Obj?
    && MayHave(v.fields, "category", IsText)
    && MayHave(v.fields, "type", IsAdType)
    && MayHave(v.fields, "min_price", IsPositive)
    && MayHave(v.fields, "max_price", IsPositive)
    && MayHave(v.fields, "search", IsText)
    && MayHave(v.fields, "page", IsPage)
    && MayHave(v.fields, "limit", IsLimit)
  }

  /** `searchAdsSchema.parse`: `page` defaults to 1 and `limit` to 20. */
  function ParseSearch(v: Value): (r: Parsed<SearchQuery>)
    ensures r.Success? <==> SearchValid(v)
    ensures r.Success? ==> r.value.page >= 1 && 1 <= r.value.limit <= 100
    ensures r.Success? ==>
      && r.value.page == (if "page" in v.fields then v.fields["page"].n.Floor else 1)
      && r.value.limit == (if "limit" in v.fields then v.fields["limit"].n.Floor else 20)
      && r.value.category == (if "category" in v.fields then Some(v.fields["category"].s) else None)
      && r.value.minPrice == (if "min_price" in v.fields then Some(v.fields["min_price"].n) else None)
      && r.value.adType == EnumAt(v.fields, "type", ParseAdType)
      && r.value.maxPrice == NumberAt(v.fields, "max_price")
      && r.value.search == TextAt(v.fields, "search")
    ensures !r.Crashed?
  {
    if !v.Obj? then Failure(Standard(InvalidType))
    else
      var f := v.fields;
      var category :- Optional(f, "category", x => StringOf(x, AnyString));
      var adType :- Optional(f, "type", x => EnumOf(x, ParseAdType));
      var minPrice :- Optional(f, "min_price", x => NumberOf(x, PositiveRule));
      var maxPrice :- Optional(f, "max_price", x => NumberOf(x, PositiveRule));
      var search :- Optional(f, "search", x => StringOf(x, AnyString));
      var page :- WithDefault(f, "page", 1, x => IntegerOf(x, PositiveIntegerRule));
      var limit :- WithDefault(f, "limit", 20, x => IntegerOf(x, LimitRule));
      Success(SearchQuery(category, adType, minPrice, maxPrice, search, page, limit))
  }
}
