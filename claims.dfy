/**
 * `/api/public/claims`, behind `withAuth`: GET lists the claims the caller filed or
 * that concern an order the caller bought or sold, newest first and paginated; POST
 * files a claim on an order the caller is a party to and notifies the other party.
 *
 * `Number(...)` on a query parameter is a parameter (`toNumber`). `claimId` is the id
 * the store gives a new claim, and `inserted` whether it accepts the insert; a refused
 * insert is answered 400.
 */
module Claims {
  import opened Wrappers
  import opened Strings
  import opened Database
  import opened Store
  import opened Validation
  import opened Paging

  /** The query parameters the listing reads: `page`, `limit`. */
  datatype ClaimQuery = ClaimQuery(page: Option<string>, limit: Option<string>)

  /** The caller filed the claim, or is the buyer or the seller of its order. */
  function VisibleTo(orders: seq<Order>, caller: string): Claim -> bool
  {
    (c: Claim) =>
      c.claimantId == caller
      || exists i :: 0 <= i < |orders| && orders[i].id == c.orderId && (orders[i].buyerId == caller || orders[i].sellerId == caller)
  }

  function ListClaims(t: Tables, caller: string, q: ClaimQuery, toNumber: string -> JsNumber): Listing<Claim>
  {
    ListingOf(Matching(t.claims, VisibleTo(t.orders, caller)), QueryNumber(q.page, 1.0, toNumber), QueryNumber(q.limit, 20.0, toNumber))
  }

  /** The caller is the buyer or the seller of the order. */
  predicate IsParty(order: Order, caller: string)
  {
    order.buyerId == caller || order.sellerId == caller
  }

  /** The party told about a claim: the seller when the buyer files it, the buyer otherwise. */
  function OtherParty(order: Order, caller: string): (r: string)
    requires IsParty(order, caller)
    ensures order.buyerId == caller ==> r == order.sellerId
    ensures order.buyerId != caller ==> r == order.buyerId && order.sellerId == caller
  {
    if order.buyerId == caller then order.sellerId else order.buyerId
  }

  /** The row inserted for a claim: the caller as claimant, the status left to the store. */
  function ClaimRow(id: string, body: ClaimBody, caller: string, defaults: ColumnDefaults): (r: Claim)
    ensures r.id == id && r.orderId == body.orderId && r.claimantId == caller && r.claimType == body.claimType
    ensures r.subject == body.subject && r.description == body.description && r.photos == body.photos
    ensures r.status == defaults.claimStatus
  {
    Claim(id, body.orderId, caller, body.claimType, defaults.claimStatus, body.subject, body.description, body.photos)
  }

  /** POST: the checks in order, then the claim and the other party's notification. */
  function CreateClaimOutcome(t: Tables, defaults: ColumnDefaults, caller: string, body: Value, claimId: string, inserted: bool): Outcome
  {
    match ValidateBody(ParseCreateClaim(body))
    case Invalid(_) => Outcome(400, t)
    case Valid(b) =>
      match Single(t.orders, OrderIs(b.orderId))
      case None => Outcome(404, t)
      case Some(order) =>
        if !IsParty(order, caller) then Outcome(403, t)
        else if !inserted then Outcome(400, t)
        else Outcome(201, t.(claims := t.claims + [ClaimRow(claimId, b, caller, defaults)],
                             notifications := t.notifications + [Notification(OtherParty(order, caller), NewClaim)]))
  }

  datatype ClaimsAnswer = ClaimsAnswer(status: nat, page: Option<Page<Claim>>, tables: Tables)

  function ClaimsOutcome(t: Tables, defaults: ColumnDefaults, caller: string, httpMethod: string, q: ClaimQuery, body: Value,
                         toNumber: string -> JsNumber, claimId: string, inserted: bool): ClaimsAnswer
  {
    if httpMethod == "GET" then
      var l := ListClaims(t, caller, q, toNumber);
      ClaimsAnswer(l.status, l.page, t)
    else if httpMethod == "POST" then
      var o := CreateClaimOutcome(t, defaults, caller, body, claimId, inserted);
      ClaimsAnswer(o.status, None, o.tables)
    else ClaimsAnswer(405, None, t)
  }

  method HandleClaims(db: Db, caller: string, httpMethod: string, q: ClaimQuery, body: Value,
                      toNumber: string -> JsNumber, claimId: string, inserted: bool)
    returns (status: nat, page: Option<Page<Claim>>)
    modifies db
    ensures ClaimsAnswer(status, page, db.State())
      == ClaimsOutcome(old(db.State()), db.defaults, caller, httpMethod, q, body, toNumber, claimId, inserted)
  {
    if httpMethod == "GET" {
      var l := ListClaims(db.State(), caller, q, toNumber);
      return l.status, l.page;
    }
    if httpMethod != "POST" {
      return 405, None;
    }
    var validation := ValidateBody(ParseCreateClaim(body));
    if validation.Invalid? {
      return 400, None;
    }
    var b := validation.data;
    var found := Single(db.orders, OrderIs(b.orderId));
    if found.None? {
      return 404, None;
    }
    var order := found.value;
    if !IsParty(order, caller) {
      return 403, None;
    }
    if !inserted {
      return 400, None;
    }
    db.claims := db.claims + [ClaimRow(claimId, b, caller, db.defaults)];
    db.notifications := db.notifications + [Notification(OtherParty(order, caller), NewClaim)];
    return 201, None;
  }

  // ---------------------------------------------------------------------------
  // Properties

  /**
   * The checks of POST in order: an invalid body (400), an unknown order (404), a
   * caller who is neither its buyer nor its seller (403). A refusal writes nothing.
   */
  lemma CreateClaimChecks(t: Tables, defaults: ColumnDefaults, caller: string, body: Value, claimId: string, inserted: bool)
    ensures var r := CreateClaimOutcome(t, defaults, caller, body, claimId, inserted);
      && r.status in {201, 400, 403, 404}
      && (r.status != 201 ==> r.tables == t)
      && (!ClaimBodyValid(body) ==> r.status == 400)
      && (ClaimBodyValid(body) ==>
            var order := Single(t.orders, OrderIs(ParseCreateClaim(body).value.orderId));
            && (order.None? ==> r.status == 404)
            && (order.Some? && !IsParty(order.value, caller) ==> r.status == 403)
            && (order.Some? && IsParty(order.value, caller) ==> (r.status == 201 <==> inserted)))
  {
  }

  /**
   * A filed claim is one row appended to the claims, with the caller as claimant and
   * the photos of the body (none when the body has no `photos`), and one `new_claim`
   * notification to the party of the order who is not the caller; nothing else changes.
   */
  lemma CreatedClaim(t: Tables, defaults: ColumnDefaults, caller: string, body: Value, claimId: string, inserted: bool)
    ensures var r := CreateClaimOutcome(t, defaults, caller, body, claimId, inserted);
      r.status == 201 ==>
        var b := ParseCreateClaim(body).value;
        var order := Single(t.orders, OrderIs(b.orderId)).value;
        && r.tables.claims == t.claims + [ClaimRow(claimId, b, caller, defaults)]
        && ("photos" !in body.fields ==> r.tables.claims[|t.claims|].photos == [])
        && |r.tables.notifications| == |t.notifications| + 1
        && r.tables.notifications[..|t.notifications|] == t.notifications
        && var n := r.tables.notifications[|t.notifications|];
        && n.kind == NewClaim
        && (caller == order.buyerId ==> n.userId == order.sellerId)
        && (caller != order.buyerId ==> caller == order.sellerId && n.userId == order.buyerId)
        && r.tables.(claims := t.claims, notifications := t.notifications) == t
  {
  }

  /** Every listed claim is one the caller filed or one about an order the caller bought or sold. */
  lemma ListedClaimsAreVisible(t: Tables, caller: string, q: ClaimQuery, toNumber: string -> JsNumber)
    ensures var r := ListClaims(t, caller, q, toNumber);
      r.page.Some? ==>
        && |r.page.value.rows| <= r.page.value.limit
        && forall i :: 0 <= i < |r.page.value.rows| ==>
             var c := r.page.value.rows[i];
             && c in t.claims
             && (c.claimantId == caller || exists o :: o in t.orders && o.id == c.orderId && IsParty(o, caller))
  {
    var matching := Matching(t.claims, VisibleTo(t.orders, caller));
    ListedRowsSelected(matching, QueryNumber(q.page, 1.0, toNumber), QueryNumber(q.limit, 20.0, toNumber));
    forall c | c in matching
      ensures c in t.claims && (c.claimantId == caller || exists o :: o in t.orders && o.id == c.orderId && IsParty(o, caller))
    {
      var j :| 0 <= j < |matching| && matching[j] == c;
      assert VisibleTo(t.orders, caller)(c);
      if c.claimantId != caller {
        var k :| 0 <= k < |t.orders| && t.orders[k].id == c.orderId && (t.orders[k].buyerId == caller || t.orders[k].sellerId == caller);
        assert IsParty(t.orders[k], caller);
      }
    }
  }

  /** A claim about an order the caller is a party to is listed on some page, whoever filed it. */
  lemma PartyClaimListed(t: Tables, caller: string, limit: nat, i: nat, j: nat)
    requires limit >= 1 && i < |t.claims| && j < |t.orders|
    requires t.orders[j].id == t.claims[i].orderId && IsParty(t.orders[j], caller)
    ensures exists page: nat :: OnPage(Matching(t.claims, VisibleTo(t.orders, caller)), t.claims[i], page, limit)
  {
    assert VisibleTo(t.orders, caller)(t.claims[i]);
    EveryRowListed(Matching(t.claims, VisibleTo(t.orders, caller)), t.claims[i], limit);
  }

  /** Methods other than GET and POST are answered 405 and change nothing. */
  lemma OtherMethodsRefused(t: Tables, defaults: ColumnDefaults, caller: string, httpMethod: string, q: ClaimQuery, body: Value,
                            toNumber: string -> JsNumber, claimId: string, inserted: bool)
    requires httpMethod != "GET" && httpMethod != "POST"
    ensures ClaimsOutcome(t, defaults, caller, httpMethod, q, body, toNumber, claimId, inserted) == ClaimsAnswer(405, None, t)
  {
  }
}
