/**
 * The listing shape shared by the GET handlers: rows ordered newest first, the window
 * `.range(offset, offset + limit - 1)` with `offset = (page - 1) * limit`, the exact
 * count of matching rows and `totalPages = Math.ceil(count / limit)`.
 */
module Paging {
  import opened Wrappers
  import opened Strings

  /** A JavaScript number as `Number(...)` produces it from a query string (infinities are not modelled). */
  datatype JsNumber = Finite(value: real) | NotANumber

  /**
   * `.order('created_at', { ascending: false })`. Tables keep rows in insertion order
   * and a row's `created_at` is its insertion time, so newest first is the reverse order.
   */
  function NewestFirst<R>(rows: seq<R>): (r: seq<R>)
    ensures |r| == |rows|
    ensures forall i :: 0 <= i < |rows| ==> r[i] == rows[|rows| - 1 - i]
  {
    seq(|rows|, i requires 0 <= i < |rows| => rows[|rows| - 1 - i])
  }

  /** `Math.ceil(total / limit)` for a positive limit. */
  function CeilDiv(total: nat, limit: nat): (r: nat)
    requires limit > 0
    ensures r * limit >= total
    ensures r > 0 ==> (r - 1) * limit < total
  {
    (total + limit - 1) / limit
  }

  /** At most `limit` rows starting at `offset`. */
  function Window<R>(rows: seq<R>, offset: nat, limit: nat): (r: seq<R>)
    ensures |r| <= limit
    ensures |r| == if offset >= |rows| then 0 else if |rows| - offset < limit then |rows| - offset else limit
    ensures forall i :: 0 <= i < |r| ==> r[i] == rows[offset + i]
  {
    if offset >= |rows| then []
    else if |rows| - offset < limit then rows[offset..]
    else rows[offset..offset + limit]
  }

  /** One page of a listing, and the pagination block of the answer. */
  datatype Page<R> = Page(rows: seq<R>, total: nat, page: nat, limit: nat, totalPages: nat)

  /** A page number and a page size the store can turn into a window: positive integers. */
  predicate IsWindow(page: JsNumber, limit: JsNumber)
  {
    && page.Finite? && page.value.Floor as real == page.value && page.value >= 1.0
    && limit.Finite? && limit.value.Floor as real == limit.value && limit.value >= 1.0
  }

  /**
   * The answer to a listing whose filter selected `matching` (in table order): page
   * `page` of size `limit`, newest first. A page number or size that is not a positive
   * integer yields no window, and the store answers an error.
   */
  function Paginate<R(==)>(matching: seq<R>, page: JsNumber, limit: JsNumber): (r: Option<Page<R>>)
    ensures r.Some? <==> IsWindow(page, limit)
    ensures r.Some? ==>
      && r.value.page as real == page.value && r.value.limit as real == limit.value
      && r.value.total == |matching|
      && WindowOf(r.value, NewestFirst(matching))
  {
    if !IsWindow(page, limit) then None
    else Some(PageAt(matching, page.value.Floor, limit.value.Floor))
  }

  /** The rows of a page are the ones of the newest-first listing its window selects, and the page count covers the listing. */
  predicate WindowOf<R(==)>(p: Page<R>, listing: seq<R>)
  {
    && p.page >= 1 && p.limit >= 1
    && |p.rows| <= p.limit
    && p.totalPages == CeilDiv(|listing|, p.limit)
    && forall i :: 0 <= i < |p.rows| ==> (p.page - 1) * p.limit + i < |listing| && p.rows[i] == listing[(p.page - 1) * p.limit + i]
  }

  function PageAt<R(==)>(matching: seq<R>, page: nat, limit: nat): (r: Page<R>)
    requires page >= 1 && limit >= 1
    ensures r.page == page && r.limit == limit && r.total == |matching|
    ensures WindowOf(r, NewestFirst(matching))
  {
    var offset: nat := (page - 1) * limit;
    Page(Window(NewestFirst(matching), offset, limit), |matching|, page, limit, CeilDiv(|matching|, limit))
  }

  /**
   * The pages cover the listing: the row at position `i` (newest first) is on page
   * `i / limit + 1`, at position `i % limit`, and that page is one of the `totalPages`.
   */
  lemma PagesCoverListing<R>(matching: seq<R>, limit: nat, i: nat)
    requires limit >= 1 && i < |matching|
    ensures var page := i / limit + 1;
      && page <= CeilDiv(|matching|, limit)
      && var r := Paginate(matching, Finite(page as real), Finite(limit as real));
      && r.Some?
      && i % limit < |r.value.rows|
      && r.value.rows[i % limit] == NewestFirst(matching)[i]
  {
    var page := i / limit + 1;
    PositionOnPage(|matching|, limit, i);
    assert IsWindow(Finite(page as real), Finite(limit as real));
    var p := PageAt(matching, page, limit);
    assert Paginate(matching, Finite(page as real), Finite(limit as real)) == Some(p);
    var w := Window(NewestFirst(matching), (page - 1) * limit, limit);
    assert p.rows == w;
    assert i % limit < |w|;
  }

  /** Position `i` of a listing of `n` rows is on page `i / limit + 1`, one of the `CeilDiv(n, limit)` pages. */
  lemma PositionOnPage(n: nat, limit: nat, i: nat)
    requires limit >= 1 && i < n
    ensures (i / limit) * limit + i % limit == i && 0 <= i % limit < limit
    ensures i / limit + 1 <= CeilDiv(n, limit)
  {
    var q := i / limit;
    var r := CeilDiv(n, limit);
    assert q * limit <= i;
    if q >= r {
      MulMonotonic(r, q, limit);
      assert false;
    }
  }

  lemma MulMonotonic(a: nat, b: nat, c: nat)
    requires a <= b
    ensures a * c <= b * c
  {
    assert b * c == a * c + (b - a) * c;
  }

  /** Every row of a page is one of the rows the filter selected. */
  lemma PageRowsSelected<R>(matching: seq<R>, page: nat, limit: nat)
    requires page >= 1 && limit >= 1
    ensures forall x :: x in PageAt(matching, page, limit).rows ==> x in matching
  {
    var p := PageAt(matching, page, limit);
    forall x | x in p.rows
      ensures x in matching
    {
      var i :| 0 <= i < |p.rows| && p.rows[i] == x;
      var k := (p.page - 1) * p.limit + i;
      assert x == NewestFirst(matching)[k];
      assert x == matching[|matching| - 1 - k];
    }
  }

  /** Every row of a listed page is one of the rows the filter selected, and a page holds at most `limit` rows. */
  lemma ListedRowsSelected<R>(matching: seq<R>, page: JsNumber, limit: JsNumber)
    ensures var r := ListingOf(matching, page, limit);
      r.page.Some? ==>
        && |r.page.value.rows| <= r.page.value.limit
        && forall x :: x in r.page.value.rows ==> x in matching
  {
    if IsWindow(page, limit) {
      PageRowsSelected(matching, page.value.Floor, limit.value.Floor);
    }
  }

  /** `x` is among the rows of page `page` of size `limit`. */
  predicate OnPage<R(==)>(matching: seq<R>, x: R, page: nat, limit: nat)
  {
    page >= 1 && limit >= 1 && x in PageAt(matching, page, limit).rows
  }

  /** Every row a filter selects is on some page, for any page size. */
  lemma EveryRowListed<R>(matching: seq<R>, x: R, limit: nat)
    requires x in matching && limit >= 1
    ensures exists page: nat :: OnPage(matching, x, page, limit)
  {
    var j :| 0 <= j < |matching| && matching[j] == x;
    var k := |matching| - 1 - j;
    PagesCoverListing(matching, limit, k);
    var page: nat := k / limit + 1;
    assert PageAt(matching, page, limit).rows[k % limit] == x;
    assert OnPage(matching, x, page, limit);
  }

  /** `req.query.x ? Number(req.query.x) : d`: an absent or empty parameter takes the default. */
  function QueryNumber(q: Option<string>, d: real, toNumber: string -> JsNumber): (r: JsNumber)
    ensures !Truthy(q) ==> r == Finite(d)
    ensures Truthy(q) ==> r == toNumber(q.value)
  {
    if Truthy(q) then toNumber(q.value) else Finite(d)
  }

  /** The answer to a listing request: a status and, with 200, the page. */
  datatype Listing<R> = Listing(status: nat, page: Option<Page<R>>)

  /** 200 with the page, or 400 when the store refuses the window. */
  function ListingOf<R(==)>(matching: seq<R>, page: JsNumber, limit: JsNumber): (r: Listing<R>)
    ensures r.status == 200 <==> IsWindow(page, limit)
    ensures r.status == 200 || r.status == 400
    ensures r.page.Some? <==> r.status == 200
    ensures r.page == Paginate(matching, page, limit)
  {
    var p := Paginate(matching, page, limit);
    if p.Some? then Listing(200, p) else Listing(400, None)
  }

  /** Without page parameters the listing shows the 20 newest rows. */
  lemma DefaultWindow<R>(matching: seq<R>, toNumber: string -> JsNumber)
    ensures var r := ListingOf(matching, QueryNumber(None, 1.0, toNumber), QueryNumber(None, 20.0, toNumber));
      && r.status == 200
      && r.page.value.page == 1 && r.page.value.limit == 20
      && |r.page.value.rows| == (if |matching| < 20 then |matching| else 20)
      && forall i :: 0 <= i < |r.page.value.rows| ==> r.page.value.rows[i] == matching[|matching| - 1 - i]
  {
  }
}
