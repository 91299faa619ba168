/**
 * `/api/public/ads`: GET lists the active ads that match a search, newest first and
 * paginated, without authentication; POST, behind `withAuth`, publishes an ad for a
 * user who is not registered as a buyer only, computing the end of an auction from its
 * duration in hours.
 *
 * `Number(...)` on a query parameter is a parameter (`toNumber`), `now` the clock
 * (`Date.now()`, in milliseconds). `adId` is the id the store gives a new ad, and
 * `inserted` whether it accepts the insert; a refused insert is answered 400.
 */
module Ads {
  import opened Wrappers
  import opened Strings
  import opened Database
  import opened Store
  import opened Validation
  import opened Paging
  import opened Middleware

  // ---------------------------------------------------------------------------
  // GET

  /** The query parameters the listing reads. */
  datatype AdQuery = AdQuery(
    category: Option<string>,
    adType: Option<string>,
    minPrice: Option<string>,
    maxPrice: Option<string>,
    search: Option<string>,
    page: Option<string>,
    limit: Option<string>)

  function NumberValue(n: JsNumber): (r: Value)
    ensures n.Finite? ==> r == Num(n.value)
    ensures n.NotANumber? ==> r == NaN
  {
    match n
    case Finite(x) => Num(x)
    case NotANumber => NaN
  }

  function StrOf(q: Option<string>): Option<Value>
  {
    if q.Some? then Some(Str(q.value)) else None
  }

  /** A price parameter: `Number(...)` of it when it is non-empty, `undefined` otherwise. */
  function PriceOf(q: Option<string>, toNumber: string -> JsNumber): (r: Option<Value>)
    ensures r.Some? <==> Truthy(q)
    ensures r.Some? ==> r.value == NumberValue(toNumber(q.value))
  {
    if Truthy(q) then Some(NumberValue(toNumber(q.value))) else None
  }

  /** One entry of the object; a key whose value is `undefined` is absent from the object zod parses. */
  function Entry(key: string, v: Option<Value>): (r: map<string, Value>)
    ensures key in r <==> v.Some?
    ensures v.Some? ==> r[key] == v.value
    ensures forall k :: k in r ==> k == key
  {
    if v.Some? then map[key := v.value] else map[]
  }

  /** The text parameters, each present whenever it is given, even empty. */
  function TextEntries(q: AdQuery): (r: map<string, Value>)
    ensures "category" in r <==> q.category.Some?
    ensures q.category.Some? ==> r["category"] == Str(q.category.value)
    ensures "type" in r <==> q.adType.Some?
    ensures q.adType.Some? ==> r["type"] == Str(q.adType.value)
    ensures "search" in r <==> q.search.Some?
    ensures q.search.Some? ==> r["search"] == Str(q.search.value)
    ensures "min_price" !in r && "max_price" !in r && "page" !in r && "limit" !in r
  {
    Entry("category", StrOf(q.category)) + Entry("type", StrOf(q.adType)) + Entry("search", StrOf(q.search))
  }

  /** The price parameters, each present only when non-empty. */
  function PriceEntries(q: AdQuery, toNumber: string -> JsNumber): (r: map<string, Value>)
    ensures "min_price" in r <==> Truthy(q.minPrice)
    ensures Truthy(q.minPrice) ==> r["min_price"] == NumberValue(toNumber(q.minPrice.value))
    ensures "max_price" in r <==> Truthy(q.maxPrice)
    ensures Truthy(q.maxPrice) ==> r["max_price"] == NumberValue(toNumber(q.maxPrice.value))
    ensures "category" !in r && "type" !in r && "search" !in r && "page" !in r && "limit" !in r
  {
    Entry("min_price", PriceOf(q.minPrice, toNumber)) + Entry("max_price", PriceOf(q.maxPrice, toNumber))
  }

  /** `page` and `limit`, always present, with their defaults. */
  function WindowEntries(q: AdQuery, toNumber: string -> JsNumber): (r: map<string, Value>)
    ensures "page" in r && r["page"] == NumberValue(QueryNumber(q.page, 1.0, toNumber))
    ensures "limit" in r && r["limit"] == NumberValue(QueryNumber(q.limit, 20.0, toNumber))
    ensures "category" !in r && "type" !in r && "search" !in r && "min_price" !in r && "max_price" !in r
  {
    map["page" := NumberValue(QueryNumber(q.page, 1.0, toNumber)), "limit" := NumberValue(QueryNumber(q.limit, 20.0, toNumber))]
  }

  /**
   * The object the search schema validates: the text parameters whenever they are
   * given, the prices through `Number(...)` only when non-empty, `page` and `limit`
   * through `Number(...)` with the defaults 1 and 20.
   */
  function SearchObject(q: AdQuery, toNumber: string -> JsNumber): (r: Value)
    ensures r.Obj?
    ensures "page" in r.fields && r.fields["page"] == NumberValue(QueryNumber(q.page, 1.0, toNumber))
    ensures "limit" in r.fields && r.fields["limit"] == NumberValue(QueryNumber(q.limit, 20.0, toNumber))
    ensures "min_price" in r.fields <==> Truthy(q.minPrice)
    ensures Truthy(q.minPrice) ==> r.fields["min_price"] == NumberValue(toNumber(q.minPrice.value))
    ensures "max_price" in r.fields <==> Truthy(q.maxPrice)
    ensures Truthy(q.maxPrice) ==> r.fields["max_price"] == NumberValue(toNumber(q.maxPrice.value))
    ensures "category" in r.fields <==> q.category.Some?
    ensures q.category.Some? ==> r.fields["category"] == Str(q.category.value)
    ensures "type" in r.fields <==> q.adType.Some?
    ensures q.adType.Some? ==> r.fields["type"] == Str(q.adType.value)
    ensures "search" in r.fields <==> q.search.Some?
    ensures q.search.Some? ==> r.fields["search"] == Str(q.search.value)
  {
    Obj(TextEntries(q) + PriceEntries(q, toNumber) + WindowEntries(q, toNumber))
  }

  /** `%term%` under `ilike`: the term occurs in the text, ignoring letter case. */
  predicate ContainsIgnoringCase(text: string, term: string)
  {
    Contains(Lower(text), Lower(term))
  }

  /** The filters of the listing: active ads, then each filter the search sets. */
  function AdMatches(s: SearchQuery): Ad -> bool
  {
    (a: Ad) => Passes(a, s)
  }

  /** GET: 400 for a search the schema refuses, else the page of matching ads. */
  function ListAds(t: Tables, q: AdQuery, toNumber: string -> JsNumber): Listing<Ad>
  {
    match ValidateBody(ParseSearch(SearchObject(q, toNumber)))
    case Invalid(_) => Listing(400, None)
    case Valid(s) => ListingOf(Matching(t.ads, AdMatches(s)), Finite(s.page as real), Finite(s.limit as real))
  }

  // ---------------------------------------------------------------------------
  // POST

  /** The largest magnitude, in milliseconds, of a valid JavaScript date. */
  const MaxTime: int := 8640000000000000

  /** An hour in milliseconds. */
  const Hour: int := 60 * 60 * 1000

  /** The auction end: `now` plus the duration's hours for an auction with a duration that starts with an integer. */
  function AuctionEndDate(fields: AdFields, now: int): (r: Option<int>)
    ensures r.Some? <==> fields.adType == Auction && Truthy(fields.auctionDuration) && ParseInt(fields.auctionDuration.value).Some?
    ensures r.Some? ==> r.value == now + ParseInt(fields.auctionDuration.value).value * Hour
  {
    if fields.adType == Auction && Truthy(fields.auctionDuration) then
      match ParseInt(fields.auctionDuration.value)
      case None => None
      case Some(hours) => Some(now + hours * Hour)
    else None
  }

  /** `toISOString()` throws a `RangeError` outside the range of valid dates. */
  predicate ValidTime(ms: int)
  {
    -MaxTime <= ms <= MaxTime
  }

  /** The row inserted for an ad: the caller as author, the activity flag left to the store. */
  function AdRow(id: string, fields: AdFields, caller: string, end: Option<int>, defaults: ColumnDefaults, now: int): (r: Ad)
    ensures r.id == id && r.fields == fields && r.authorId == caller && r.auctionEndDate == end
    ensures r.isActive == defaults.adIsActive && r.createdAt == now
  {
    Ad(id, caller, fields, end, defaults.adIsActive, now)
  }

  /** POST: the caller and the body, then the publication of the parsed fields. */
  function CreateAdOutcome(t: Tables, defaults: ColumnDefaults, caller: Option<string>, body: Value, now: int,
                           adId: string, inserted: bool): Outcome
  {
    if caller.None? then Outcome(401, t)
    else match ValidateBody(ParseCreateAd(body))
      case Invalid(_) => Outcome(400, t)
      case Valid(fields) => PublishOutcome(t, defaults, caller.value, fields, now, adId, inserted)
  }

  /** After validation: the buyer-only flag, the auction end, then the insert. */
  function PublishOutcome(t: Tables, defaults: ColumnDefaults, caller: string, fields: AdFields, now: int,
                          adId: string, inserted: bool): Outcome
  {
    var user := Single(t.users, UserIs(caller));
    if user.Some? && user.value.isOnlyBuyer then Outcome(403, t)
    else
      var end := AuctionEndDate(fields, now);
      if end.Some? && !ValidTime(end.value) then Outcome(500, t)
      else if !inserted then Outcome(400, t)
      else Outcome(201, t.(ads := t.ads + [AdRow(adId, fields, caller, end, defaults, now)]))
  }

  datatype AdsAnswer = AdsAnswer(status: nat, page: Option<Page<Ad>>, tables: Tables)

  function AdsOutcome(t: Tables, defaults: ColumnDefaults, caller: Option<string>, httpMethod: string, q: AdQuery, body: Value,
                      toNumber: string -> JsNumber, now: int, adId: string, inserted: bool): AdsAnswer
  {
    if httpMethod == "GET" then
      var l := ListAds(t, q, toNumber);
      AdsAnswer(l.status, l.page, t)
    else if httpMethod == "POST" then
      var o := CreateAdOutcome(t, defaults, caller, body, now, adId, inserted);
      AdsAnswer(o.status, None, o.tables)
    else AdsAnswer(405, None, t)
  }

  method HandleAds(db: Db, caller: Option<string>, httpMethod: string, q: AdQuery, body: Value,
                   toNumber: string -> JsNumber, now: int, adId: string, inserted: bool)
    returns (status: nat, page: Option<Page<Ad>>)
    modifies db
    ensures AdsAnswer(status, page, db.State())
      == AdsOutcome(old(db.State()), db.defaults, caller, httpMethod, q, body, toNumber, now, adId, inserted)
  {
    if httpMethod == "GET" {
      var l := ListAds(db.State(), q, toNumber);
      return l.status, l.page;
    }
    if httpMethod != "POST" {
      return 405, None;
    }
    status := CreateAd(db, caller, body, now, adId, inserted);
    page := None;
  }

  /** The POST branch of the handler. */
  method CreateAd(db: Db, caller: Option<string>, body: Value, now: int, adId: string, inserted: bool)
    returns (status: nat)
    modifies db
    ensures Outcome(status, db.State()) == CreateAdOutcome(old(db.State()), db.defaults, caller, body, now, adId, inserted)
  {
    if caller.None? {
      return 401;
    }
    var validation := ValidateBody(ParseCreateAd(body));
    if validation.Invalid? {
      return 400;
    }
    status := Publish(db, caller.value, validation.data, now, adId, inserted);
  }

  method Publish(db: Db, caller: string, fields: AdFields, now: int, adId: string, inserted: bool)
    returns (status: nat)
    modifies db
    ensures Outcome(status, db.State()) == PublishOutcome(old(db.State()), db.defaults, caller, fields, now, adId, inserted)
  {
    var user := Single(db.users, UserIs(caller));
    if user.Some? && user.value.isOnlyBuyer {
      return 403;
    }
    var end := AuctionEndDate(fields, now);
    if end.Some? && !ValidTime(end.value) {
      return 500;
    }
    if !inserted {
      return 400;
    }
    db.ads := db.ads + [AdRow(adId, fields, caller, end, db.defaults, now)];
    return 201;
  }

  /** The default export: a POST goes through `withAuth` first, any other method straight to the handler. */
  function AdsRoute(req: Request, env: Env): Reply
  {
    if req.httpMethod == "POST" then Serve(Guarded(Auth, Endpoint), req, env) else Reached(req)
  }

  // ---------------------------------------------------------------------------
  // Properties

  /**
   * Listing needs no authentication, while a POST reaches the handler only with a
   * user attached, so the handler's own 401 is never answered through the route.
   */
  lemma RouteAuthentication(req: Request, env: Env)
    ensures req.httpMethod != "POST" ==> AdsRoute(req, env) == Reached(req)
    ensures req.httpMethod == "POST" && BearerToken(req.authorization).None? ==> AdsRoute(req, env) == Status(401)
    ensures req.httpMethod == "POST" && AdsRoute(req, env).Reached? ==> AdsRoute(req, env).req.user.Some?
  {
    ServeAuthSetsUser(Endpoint, req, env);
  }

  /**
   * Every listed ad is active and passes each filter the search sets: the category,
   * the type, the price bounds (inclusive) and the search term in its title or its
   * other information, ignoring case.
   */
  lemma ListedAdsMatch(t: Tables, q: AdQuery, toNumber: string -> JsNumber)
    ensures var r := ListAds(t, q, toNumber);
      var parsed := ParseSearch(SearchObject(q, toNumber));
      r.page.Some? ==>
        && parsed.Success?
        && 1 <= r.page.value.limit <= 100
        && |r.page.value.rows| <= r.page.value.limit
        && forall i :: 0 <= i < |r.page.value.rows| ==> r.page.value.rows[i] in t.ads && Passes(r.page.value.rows[i], parsed.value)
  {
    var parsed := ParseSearch(SearchObject(q, toNumber));
    if parsed.Success? {
      PageOfMatches(t.ads, parsed.value);
    }
  }

  /**
   * Conversely, every stored ad that passes an accepted search is on some page of
   * its listing: each filter narrows the listing only when the search sets it.
   */
  lemma EveryMatchingAdListed(t: Tables, q: AdQuery, toNumber: string -> JsNumber, i: nat)
    requires ParseSearch(SearchObject(q, toNumber)).Success?
    requires i < |t.ads| && Passes(t.ads[i], ParseSearch(SearchObject(q, toNumber)).value)
    ensures var s := ParseSearch(SearchObject(q, toNumber)).value;
      exists page: nat :: OnPage(Matching(t.ads, AdMatches(s)), t.ads[i], page, s.limit)
  {
    var s := ParseSearch(SearchObject(q, toNumber)).value;
    assert AdMatches(s)(t.ads[i]);
    EveryRowListed(Matching(t.ads, AdMatches(s)), t.ads[i], s.limit);
  }

  /** An ad passes a search: it is active and meets each filter the search sets. */
  predicate Passes(a: Ad, s: SearchQuery)
  {
    && a.isActive
    && (Truthy(s.category) ==> CategoryName(a.fields.category) == s.category.value)
    && (s.adType.Some? ==> a.fields.adType == s.adType.value)
    && (s.minPrice.Some? ==> a.fields.unitPrice >= s.minPrice.value)
    && (s.maxPrice.Some? ==> a.fields.unitPrice <= s.maxPrice.value)
    && (Truthy(s.search) ==>
          ContainsIgnoringCase(a.fields.title, s.search.value)
          || (a.fields.otherInfo.Some? && ContainsIgnoringCase(a.fields.otherInfo.value, s.search.value)))
  }

  lemma PageOfMatches(ads: seq<Ad>, s: SearchQuery)
    requires s.page >= 1 && 1 <= s.limit <= 100
    ensures var r := ListingOf(Matching(ads, AdMatches(s)), Finite(s.page as real), Finite(s.limit as real));
      && r.page.Some? && r.page.value.limit == s.limit
      && |r.page.value.rows| <= r.page.value.limit
      && forall i :: 0 <= i < |r.page.value.rows| ==> r.page.value.rows[i] in ads && Passes(r.page.value.rows[i], s)
  {
    var matching := Matching(ads, AdMatches(s));
    assert IsWindow(Finite(s.page as real), Finite(s.limit as real));
    PageRowsSelected(matching, s.page, s.limit);
    forall x | x in matching
      ensures x in ads && Passes(x, s)
    {
      var j :| 0 <= j < |matching| && matching[j] == x;
      assert AdMatches(s)(matching[j]);
    }
  }

  /** A search the schema refuses — a page size above 100, a price that is not a number — is answered 400. */
  lemma InvalidSearchRefused(t: Tables, q: AdQuery, toNumber: string -> JsNumber)
    ensures Truthy(q.limit) && toNumber(q.limit.value) == Finite(101.0) ==> ListAds(t, q, toNumber) == Listing(400, None)
    ensures Truthy(q.minPrice) && toNumber(q.minPrice.value) == NotANumber ==> ListAds(t, q, toNumber) == Listing(400, None)
  {
    var v := SearchObject(q, toNumber);
    if Truthy(q.limit) && toNumber(q.limit.value) == Finite(101.0) {
      assert !IsLimit(v.fields["limit"]);
    }
    if Truthy(q.minPrice) && toNumber(q.minPrice.value) == NotANumber {
      assert !IsPositive(v.fields["min_price"]);
    }
  }

  /** Without page parameters the listing shows the 20 newest matching ads. */
  lemma DefaultAdWindow(t: Tables, q: AdQuery, toNumber: string -> JsNumber)
    requires q.page.None? && q.limit.None?
    ensures var r := ListAds(t, q, toNumber);
      r.status == 200 ==> r.page.value.page == 1 && r.page.value.limit == 20
  {
  }

  /**
   * An auction whose duration is written as a whole number of hours (possibly followed
   * by text that is not a digit) ends that many hours after `now`.
   */
  lemma AuctionOfHours(fields: AdFields, now: int, hours: nat, rest: string)
    requires rest == [] || (!IsDecimalDigit(rest[0]) && rest[0] != 'x' && rest[0] != 'X')
    requires fields.adType == Auction && fields.auctionDuration == Some(NatToString(hours) + rest)
    ensures AuctionEndDate(fields, now) == Some(now + hours * 3600000)
  {
    var d := NatToString(hours) + rest;
    ParseIntOfDecimal(hours, rest);
    AuctionEndOf(fields, now, hours);
  }

  lemma AuctionEndOf(fields: AdFields, now: int, hours: int)
    requires fields.adType == Auction && Truthy(fields.auctionDuration)
    requires ParseInt(fields.auctionDuration.value) == Some(hours)
    ensures AuctionEndDate(fields, now) == Some(now + hours * 3600000)
  {
  }

  /** A duration that does not start with a digit gives no end date, and neither does an ad sold directly. */
  lemma NoAuctionEnd(fields: AdFields, now: int)
    ensures fields.adType == DirectPurchase ==> AuctionEndDate(fields, now).None?
    ensures fields.auctionDuration == Some("jours") ==> AuctionEndDate(fields, now).None?
  {
    ParseIntNoDigits("jours");
  }

  /**
   * The checks of POST in order: no user (401), then an invalid body (400); a valid
   * body from a user goes on to publication.
   */
  lemma CreateAdChecks(t: Tables, defaults: ColumnDefaults, caller: Option<string>, body: Value, now: int, adId: string, inserted: bool)
    ensures var r := CreateAdOutcome(t, defaults, caller, body, now, adId, inserted);
      && (caller.None? ==> r == Outcome(401, t))
      && (caller.Some? && !AdBodyValid(body) ==> r == Outcome(400, t))
      && (caller.Some? && AdBodyValid(body) ==>
            r == PublishOutcome(t, defaults, caller.value, ParseCreateAd(body).value, now, adId, inserted))
  {
  }

  /**
   * Publication, in order: a caller registered as a buyer only (403), an auction end
   * outside the range of dates (500), a refused insert (400). A caller with no user row
   * is not refused. A refusal writes nothing; a published ad is one row appended,
   * authored by the caller, with the computed auction end.
   */
  lemma PublishChecks(t: Tables, defaults: ColumnDefaults, caller: string, fields: AdFields, now: int, adId: string, inserted: bool)
    ensures var r := PublishOutcome(t, defaults, caller, fields, now, adId, inserted);
      var user := Single(t.users, UserIs(caller));
      var end := AuctionEndDate(fields, now);
      && r.status in {201, 400, 403, 500}
      && (r.status != 201 ==> r.tables == t)
      && (r.status == 403 <==> user.Some? && user.value.isOnlyBuyer)
      && (r.status == 500 <==> !(user.Some? && user.value.isOnlyBuyer) && end.Some? && !ValidTime(end.value))
      && (r.status == 201 ==>
            && inserted
            && r.tables == t.(ads := t.ads + [AdRow(adId, fields, caller, end, defaults, now)]))
  {
  }

  /**
   * An auction longer than 2.4 billion hours, published at a non-negative time, ends
   * past the last valid date: for a caller not registered as a buyer only, publication
   * fails with 500 and nothing is written.
   */
  lemma FarAuctionFails(t: Tables, defaults: ColumnDefaults, caller: string, fields: AdFields, now: nat, hours: nat,
                        adId: string, inserted: bool)
    requires fields.adType == Auction && fields.auctionDuration == Some(NatToString(hours))
    requires hours > 2400000000
    requires Single(t.users, UserIs(caller)).None? || !Single(t.users, UserIs(caller)).value.isOnlyBuyer
    ensures PublishOutcome(t, defaults, caller, fields, now, adId, inserted) == Outcome(500, t)
  {
    assert NatToString(hours) + [] == NatToString(hours);
    AuctionOfHours(fields, now, hours, []);
  }
}
