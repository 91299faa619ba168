/**
 * `/api/public/offers`, behind `withAuth`: GET lists the caller's offers (sent, received
 * or both), newest first and paginated; POST makes an offer on another user's active
 * ad, at most one pending offer per ad and buyer, and notifies the ad's author.
 *
 * `Number(...)` on a query parameter is a parameter (`toNumber`). `offerId` is the id
 * the store gives a new offer, and `inserted` whether it accepts the insert; a refused
 * insert is answered 400.
 */
module Offers {
  import opened Wrappers
  import opened Strings
  import opened Database
  import opened Store
  import opened Validation
  import opened Paging

  /** The query parameters the listing reads: `type`, `page`, `limit`. */
  datatype OfferQuery = OfferQuery(kind: Option<string>, page: Option<string>, limit: Option<string>)

  /** `type=sent`: the caller is the buyer; `type=received`: the seller; anything else: either. */
  function SideFilter(kind: Option<string>, caller: string): Offer -> bool
  {
    if kind == Some("sent") then (o: Offer) => o.buyerId == caller
    else if kind == Some("received") then (o: Offer) => o.sellerId == caller
    else (o: Offer) => o.buyerId == caller || o.sellerId == caller
  }

  /** The caller's offers, as a listing. */
  function ListOffers(t: Tables, caller: string, q: OfferQuery, toNumber: string -> JsNumber): Listing<Offer>
  {
    ListingOf(Matching(t.offers, SideFilter(q.kind, caller)), QueryNumber(q.page, 1.0, toNumber), QueryNumber(q.limit, 20.0, toNumber))
  }

  /** The caller's pending offer on an ad (`.eq('ad_id').eq('buyer_id').eq('status', 'pending')`). */
  function PendingOfferOf(adId: string, buyerId: string): Offer -> bool
  {
    (o: Offer) => o.adId == adId && o.buyerId == buyerId && o.status == OfferPending
  }

  /** The row inserted for an offer: the ad's author as seller, the caller as buyer, an empty message dropped, the status left to the store. */
  function OfferRow(id: string, body: OfferBody, ad: Ad, caller: string, defaults: ColumnDefaults): (r: Offer)
    ensures r.id == id && r.adId == body.adId && r.sellerId == ad.authorId && r.buyerId == caller
    ensures r.priceOffered == body.priceOffered && r.quantity == body.quantity && r.status == defaults.offerStatus
    ensures r.message.Some? <==> Truthy(body.message)
    ensures r.message.Some? ==> r.message == body.message
  {
    Offer(id, body.adId, ad.authorId, caller, body.priceOffered, body.quantity, defaults.offerStatus,
          if Truthy(body.message) then body.message else None)
  }

  /** POST: the checks in order, then the offer and the author's notification. */
  function CreateOfferOutcome(t: Tables, defaults: ColumnDefaults, caller: string, body: Value, offerId: string, inserted: bool): Outcome
  {
    match ValidateBody(ParseCreateOffer(body))
    case Invalid(_) => Outcome(400, t)
    case Valid(b) =>
      match Single(t.ads, AdIs(b.adId))
      case None => Outcome(404, t)
      case Some(ad) =>
        if !ad.isActive then Outcome(400, t)
        else if ad.authorId == caller then Outcome(400, t)
        else if b.quantity > ad.fields.totalQuantity then Outcome(400, t)
        else if Single(t.offers, PendingOfferOf(b.adId, caller)).Some? then Outcome(400, t)
        else if !inserted then Outcome(400, t)
        else Outcome(201, t.(offers := t.offers + [OfferRow(offerId, b, ad, caller, defaults)],
                             notifications := t.notifications + [Notification(ad.authorId, NewOffer)]))
  }

  /** The answer of the route: a status, the page of a listing, and the tables afterwards. */
  datatype OffersAnswer = OffersAnswer(status: nat, page: Option<Page<Offer>>, tables: Tables)

  function OffersOutcome(t: Tables, defaults: ColumnDefaults, caller: string, httpMethod: string, q: OfferQuery, body: Value,
                         toNumber: string -> JsNumber, offerId: string, inserted: bool): OffersAnswer
  {
    if httpMethod == "GET" then
      var l := ListOffers(t, caller, q, toNumber);
      OffersAnswer(l.status, l.page, t)
    else if httpMethod == "POST" then
      var o := CreateOfferOutcome(t, defaults, caller, body, offerId, inserted);
      OffersAnswer(o.status, None, o.tables)
    else OffersAnswer(405, None, t)
  }

  method HandleOffers(db: Db, caller: string, httpMethod: string, q: OfferQuery, body: Value,
                      toNumber: string -> JsNumber, offerId: string, inserted: bool)
    returns (status: nat, page: Option<Page<Offer>>)
    modifies db
    ensures OffersAnswer(status, page, db.State())
      == OffersOutcome(old(db.State()), db.defaults, caller, httpMethod, q, body, toNumber, offerId, inserted)
  {
    if httpMethod == "GET" {
      var l := ListOffers(db.State(), caller, q, toNumber);
      return l.status, l.page;
    }
    if httpMethod != "POST" {
      return 405, None;
    }
    page := None;
    var validation := ValidateBody(ParseCreateOffer(body));
    if validation.Invalid? {
      return 400, None;
    }
    var b := validation.data;
    var found := Single(db.ads, AdIs(b.adId));
    if found.None? {
      return 404, None;
    }
    var ad := found.value;
    if !ad.isActive || ad.authorId == caller || b.quantity > ad.fields.totalQuantity {
      return 400, None;
    }
    var existing := Single(db.offers, PendingOfferOf(b.adId, caller));
    if existing.Some? || !inserted {
      return 400, None;
    }
    db.offers := db.offers + [OfferRow(offerId, b, ad, caller, db.defaults)];
    db.notifications := db.notifications + [Notification(ad.authorId, NewOffer)];
    status := 201;
  }

  // ---------------------------------------------------------------------------
  // Properties

  /**
   * The checks of POST in order, the first failure winning: an invalid body (400), an
   * unknown ad (404), an inactive ad, the caller's own ad, a quantity above the ad's
   * total, an offer of the caller's already pending on the ad (400). A refusal writes
   * nothing.
   */
  lemma CreateOfferChecks(t: Tables, defaults: ColumnDefaults, caller: string, body: Value, offerId: string, inserted: bool)
    ensures var r := CreateOfferOutcome(t, defaults, caller, body, offerId, inserted);
      && r.status in {201, 400, 404}
      && (r.status != 201 ==> r.tables == t)
      && (!OfferBodyValid(body) ==> r.status == 400)
      && (OfferBodyValid(body) ==>
            var b := ParseCreateOffer(body).value;
            var ad := Single(t.ads, AdIs(b.adId));
            && (ad.None? ==> r.status == 404)
            && (ad.Some? ==>
                  (r.status == 201 <==>
                     && ad.value.isActive && ad.value.authorId != caller
                     && b.quantity <= ad.value.fields.totalQuantity
                     && Single(t.offers, PendingOfferOf(b.adId, caller)).None?
                     && inserted)))
  {
  }

  /**
   * An accepted offer is one row appended to the offers — seller the ad's author,
   * buyer the caller, the store's default status — and one `new_offer` notification
   * to the author; no other table changes.
   */
  lemma CreatedOffer(t: Tables, defaults: ColumnDefaults, caller: string, body: Value, offerId: string, inserted: bool)
    ensures var r := CreateOfferOutcome(t, defaults, caller, body, offerId, inserted);
      r.status == 201 ==>
        var b := ParseCreateOffer(body).value;
        var ad := Single(t.ads, AdIs(b.adId)).value;
        && r.tables.offers == t.offers + [OfferRow(offerId, b, ad, caller, defaults)]
        && r.tables.notifications == t.notifications + [Notification(ad.authorId, NewOffer)]
        && r.tables.(offers := t.offers, notifications := t.notifications) == t
        && ad.authorId != caller
  {
  }

  /** The quantity bound is inclusive: asking for the whole stock is allowed. */
  lemma WholeStockAllowed(t: Tables, defaults: ColumnDefaults, caller: string, body: Value, offerId: string)
    requires OfferBodyValid(body)
    requires var ad := Single(t.ads, AdIs(ParseCreateOffer(body).value.adId));
      && ad.Some? && ad.value.isActive && ad.value.authorId != caller
      && ParseCreateOffer(body).value.quantity == ad.value.fields.totalQuantity
    requires Count(t.offers, PendingOfferOf(ParseCreateOffer(body).value.adId, caller)) == 0
    ensures CreateOfferOutcome(t, defaults, caller, body, offerId, true).status == 201
  {
  }

  /** The offered price is never compared with the ad's price: any positive price gets the same answer. */
  lemma PriceNotCompared(t: Tables, defaults: ColumnDefaults, caller: string, body: Value, price: real, offerId: string, inserted: bool)
    requires OfferBodyValid(body) && price > 0.0
    ensures var other := Obj(body.fields["price_offered" := Num(price)]);
      && OfferBodyValid(other)
      && CreateOfferOutcome(t, defaults, caller, other, offerId, inserted).status
           == CreateOfferOutcome(t, defaults, caller, body, offerId, inserted).status
  {
    var other := Obj(body.fields["price_offered" := Num(price)]);
    assert OfferBodyValid(other);
    assert ParseCreateOffer(other).value.adId == ParseCreateOffer(body).value.adId;
    assert ParseCreateOffer(other).value.quantity == ParseCreateOffer(body).value.quantity;
  }

  /** At most one pending offer per ad and buyer. */
  ghost predicate PendingUnique(offers: seq<Offer>)
  {
    forall adId, buyerId :: AtMostOne(offers, PendingOfferOf(adId, buyerId))
  }

  /**
   * When the store's default offer status is `pending`, a POST keeps at most one
   * pending offer per ad and buyer: an offer is only added when its buyer has none
   * pending on its ad.
   */
  lemma CreateOfferKeepsPendingUnique(t: Tables, defaults: ColumnDefaults, caller: string, body: Value, offerId: string, inserted: bool)
    requires PendingUnique(t.offers)
    requires defaults.offerStatus == OfferPending
    ensures PendingUnique(CreateOfferOutcome(t, defaults, caller, body, offerId, inserted).tables.offers)
  {
    var r := CreateOfferOutcome(t, defaults, caller, body, offerId, inserted);
    if r.status == 201 {
      var b := ParseCreateOffer(body).value;
      var ad := Single(t.ads, AdIs(b.adId)).value;
      var x := OfferRow(offerId, b, ad, caller, defaults);
      assert r.tables.offers == t.offers + [x];
      forall adId, buyerId
        ensures AtMostOne(t.offers + [x], PendingOfferOf(adId, buyerId))
      {
        var p := PendingOfferOf(adId, buyerId);
        if p(x) {
          CountAtMostOne(t.offers, p);
        }
        AtMostOneAppend(t.offers, x, p);
      }
    }
  }

  /**
   * Every listed offer is one of the caller's: as buyer for `type=sent`, as seller
   * for `type=received`, on either side otherwise; a page holds at most `limit` rows.
   */
  lemma ListedOffersAreTheCallers(t: Tables, caller: string, q: OfferQuery, toNumber: string -> JsNumber)
    ensures var r := ListOffers(t, caller, q, toNumber);
      r.page.Some? ==>
        && |r.page.value.rows| <= r.page.value.limit
        && forall i :: 0 <= i < |r.page.value.rows| ==>
             var o := r.page.value.rows[i];
             && o in t.offers
             && (o.buyerId == caller || o.sellerId == caller)
             && (q.kind == Some("sent") ==> o.buyerId == caller)
             && (q.kind == Some("received") ==> o.sellerId == caller)
  {
    var matching := Matching(t.offers, SideFilter(q.kind, caller));
    ListedRowsSelected(matching, QueryNumber(q.page, 1.0, toNumber), QueryNumber(q.limit, 20.0, toNumber));
    forall x | x in matching
      ensures x in t.offers && SideFilter(q.kind, caller)(x)
    {
      var j :| 0 <= j < |matching| && matching[j] == x;
    }
  }

  /**
   * Every offer of the caller's on the chosen side is on some page of the listing,
   * whatever the page size.
   */
  lemma EveryOfferListed(t: Tables, caller: string, kind: Option<string>, limit: nat, i: nat)
    requires limit >= 1 && i < |t.offers| && SideFilter(kind, caller)(t.offers[i])
    ensures exists page: nat :: OnPage(Matching(t.offers, SideFilter(kind, caller)), t.offers[i], page, limit)
  {
    EveryRowListed(Matching(t.offers, SideFilter(kind, caller)), t.offers[i], limit);
  }

  /** Methods other than GET and POST are answered 405 and change nothing. */
  lemma OtherMethodsRefused(t: Tables, defaults: ColumnDefaults, caller: string, httpMethod: string, q: OfferQuery, body: Value,
                            toNumber: string -> JsNumber, offerId: string, inserted: bool)
    requires httpMethod != "GET" && httpMethod != "POST"
    ensures OffersOutcome(t, defaults, caller, httpMethod, q, body, toNumber, offerId, inserted) == OffersAnswer(405, None, t)
  {
  }
}
