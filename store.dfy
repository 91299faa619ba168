/**
 * The database the handlers talk to: one sequence of rows per table, in insertion
 * order, and the three query shapes the handlers use — a filter, `.single()` and an
 * update of the rows a filter selects.
 */
module Store {
  import opened Wrappers
  import opened Database

  /** A snapshot of every table the modelled handlers read or write. */
  datatype Tables = Tables(
    users: seq<User>,
    ads: seq<Ad>,
    offers: seq<Offer>,
    orders: seq<Order>,
    payments: seq<Payment>,
    deliveries: seq<Delivery>,
    claims: seq<Claim>,
    notifications: seq<Notification>,
    adminUsers: seq<AdminUser>,
    adminLogs: seq<AdminLog>)

  /** What a handler answers, and the tables once it has run. */
  datatype Outcome = Outcome(status: nat, tables: Tables)

  /** The store itself: its tables change in place, request after request. */
  class Db {
    const defaults: ColumnDefaults
    var users: seq<User>
    var ads: seq<Ad>
    var offers: seq<Offer>
    var orders: seq<Order>
    var payments: seq<Payment>
    var deliveries: seq<Delivery>
    var claims: seq<Claim>
    var notifications: seq<Notification>
    var adminUsers: seq<AdminUser>
    var adminLogs: seq<AdminLog>

    function State(): Tables
      reads this
    {
      Tables(users, ads, offers, orders, payments, deliveries, claims, notifications, adminUsers, adminLogs)
    }

    constructor (defaults: ColumnDefaults, initial: Tables)
      ensures this.defaults == defaults && State() == initial
    {
      this.defaults := defaults;
      users := initial.users;
      ads := initial.ads;
      offers := initial.offers;
      orders := initial.orders;
      payments := initial.payments;
      deliveries := initial.deliveries;
      claims := initial.claims;
      notifications := initial.notifications;
      adminUsers := initial.adminUsers;
      adminLogs := initial.adminLogs;
    }
  }

  // Filters on key columns (`.eq(column, value)`), shared by the handlers and their specifications.

  function UserIs(id: string): User -> bool
  {
    (u: User) => u.id == id
  }

  function AdIs(id: string): Ad -> bool
  {
    (a: Ad) => a.id == id
  }

  function OrderIs(id: string): Order -> bool
  {
    (o: Order) => o.id == id
  }

  function PaymentOfOrder(orderId: string): Payment -> bool
  {
    (p: Payment) => p.orderId == orderId
  }

  /** The rows a filter selects, in table order. */
  function Matching<R>(rows: seq<R>, p: R -> bool): (r: seq<R>)
    ensures |r| <= |rows|
    ensures forall i :: 0 <= i < |r| ==> r[i] in rows && p(r[i])
    ensures forall i :: 0 <= i < |rows| && p(rows[i]) ==> rows[i] in r
  {
    if rows == [] then []
    else Matching(rows[..|rows| - 1], p) + (if p(rows[|rows| - 1]) then [rows[|rows| - 1]] else [])
  }

  /** How many rows a filter selects (`count: 'exact'`). */
  function Count<R>(rows: seq<R>, p: R -> bool): nat
  {
    |Matching(rows, p)|
  }

  lemma {:induction false} CountNone<R>(rows: seq<R>, p: R -> bool)
    requires forall i :: 0 <= i < |rows| ==> !p(rows[i])
    ensures Count(rows, p) == 0
  {
    if rows != [] {
      CountNone(rows[..|rows| - 1], p);
    }
  }

  /** Appending a row adds one to the count of a filter exactly when the row passes it. */
  lemma MatchingAppend<R>(rows: seq<R>, x: R, p: R -> bool)
    ensures Matching(rows + [x], p) == Matching(rows, p) + (if p(x) then [x] else [])
    ensures Count(rows + [x], p) == Count(rows, p) + (if p(x) then 1 else 0)
  {
    assert (rows + [x])[..|rows + [x]| - 1] == rows;
  }

  /**
   * `.eq(...).single()`: the row when exactly one row matches. With none or several,
   * PostgREST answers an error and the handler sees no row.
   */
  function Single<R>(rows: seq<R>, p: R -> bool): (r: Option<R>)
    ensures r.Some? <==> Count(rows, p) == 1
    ensures r.Some? ==> r.value in rows && p(r.value) && Matching(rows, p) == [r.value]
  {
    var m := Matching(rows, p);
    if |m| == 1 then Some(m[0]) else None
  }

  /** `.update(...).eq(...)`: every row the filter selects is rewritten, the others are kept, in place. */
  function UpdateWhere<R>(rows: seq<R>, p: R -> bool, f: R -> R): (r: seq<R>)
    ensures |r| == |rows|
    ensures forall i :: 0 <= i < |rows| ==> r[i] == if p(rows[i]) then f(rows[i]) else rows[i]
  {
    seq(|rows|, i requires 0 <= i < |rows| => if p(rows[i]) then f(rows[i]) else rows[i])
  }

  /** An update whose filter selects nothing leaves the table as it was. */
  lemma UpdateNothing<R>(rows: seq<R>, p: R -> bool, f: R -> R)
    requires forall i :: 0 <= i < |rows| ==> !p(rows[i])
    ensures UpdateWhere(rows, p, f) == rows
  {
  }

  /** Each row of a sequence rewritten by `f`. */
  function MapRows<R>(rows: seq<R>, f: R -> R): (r: seq<R>)
    ensures |r| == |rows| && forall i :: 0 <= i < |rows| ==> r[i] == f(rows[i])
  {
    seq(|rows|, i requires 0 <= i < |rows| => f(rows[i]))
  }

  /**
   * An update that keeps its filter true on the rows it rewrites selects, afterwards,
   * exactly the rewritten rows: a filter on an untouched column finds the same rows.
   */
  lemma {:induction false} MatchingAfterUpdate<R>(rows: seq<R>, p: R -> bool, f: R -> R)
    requires forall x :: p(x) ==> p(f(x))
    ensures Matching(UpdateWhere(rows, p, f), p) == MapRows(Matching(rows, p), f)
    ensures Count(UpdateWhere(rows, p, f), p) == Count(rows, p)
  {
    if rows != [] {
      var front := rows[..|rows| - 1];
      var u := UpdateWhere(rows, p, f);
      assert u[..|u| - 1] == UpdateWhere(front, p, f);
      MatchingAfterUpdate(front, p, f);
    }
  }

  /** After such an update, `.single()` finds the rewritten version of the row it found before. */
  lemma SingleAfterUpdate<R>(rows: seq<R>, p: R -> bool, f: R -> R)
    requires forall x :: p(x) ==> p(f(x))
    ensures Single(UpdateWhere(rows, p, f), p).Some? <==> Single(rows, p).Some?
    ensures Single(rows, p).Some? ==> Single(UpdateWhere(rows, p, f), p) == Some(f(Single(rows, p).value))
  {
    MatchingAfterUpdate(rows, p, f);
  }

  /**
   * Rewriting every row with a function the filter cannot tell apart from the identity
   * selects the rewritten versions of the rows it selected before.
   */
  lemma {:induction false} MatchingAfterMap<R>(rows: seq<R>, p: R -> bool, f: R -> R)
    requires forall x :: p(f(x)) == p(x)
    ensures Matching(MapRows(rows, f), p) == MapRows(Matching(rows, p), f)
  {
    if rows != [] {
      var front := rows[..|rows| - 1];
      var m := MapRows(rows, f);
      assert m[..|m| - 1] == MapRows(front, f);
      MatchingAfterMap(front, p, f);
    }
  }

  /** After such a rewrite, `.single()` finds the rewritten version of the row it found before. */
  lemma SingleAfterMap<R>(rows: seq<R>, p: R -> bool, f: R -> R)
    requires forall x :: p(f(x)) == p(x)
    ensures Single(MapRows(rows, f), p) == if Single(rows, p).Some? then Some(f(Single(rows, p).value)) else None
  {
    MatchingAfterMap(rows, p, f);
  }

  /** No two rows pass the filter. */
  predicate AtMostOne<R>(rows: seq<R>, p: R -> bool)
  {
    forall i, j :: 0 <= i < j < |rows| ==> !(p(rows[i]) && p(rows[j]))
  }

  lemma {:induction false} CountAtMostOne<R>(rows: seq<R>, p: R -> bool)
    requires AtMostOne(rows, p)
    ensures Count(rows, p) <= 1
  {
    if rows != [] {
      var front := rows[..|rows| - 1];
      assert AtMostOne(front, p);
      CountAtMostOne(front, p);
      if p(rows[|rows| - 1]) {
        assert forall i :: 0 <= i < |front| ==> !p(front[i]);
        CountNone(front, p);
      }
    }
  }

  /** Appending a row that passes the filter keeps at most one passing row only when none passed before. */
  lemma AtMostOneAppend<R>(rows: seq<R>, x: R, p: R -> bool)
    requires AtMostOne(rows, p)
    requires p(x) ==> Count(rows, p) == 0
    ensures AtMostOne(rows + [x], p)
  {
    var s := rows + [x];
    assert forall i :: 0 <= i < |rows| ==> s[i] == rows[i];
  }
}
