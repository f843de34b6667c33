/** The lists the nightly sweep works from: which orders each one selects, and in what order. */
module PaymentQueries {
  import opened Wrappers
  import opened PaymentOrders

  const STUCK_MIN_AGE_MS := 5 * 60 * 1000
  const RECONCILE_LIMIT := 200
  const BACKLOG_LIMIT := 50

  predicate StuckPending(o: Order, now: int) {
    && o.status == PendingPayment && o.linkId.Some? && o.createdAt < now - STUCK_MIN_AGE_MS
    && (o.expiresAt.None? || o.expiresAt.value > now)
  }

  predicate Overdue(o: Order, now: int) {
    o.expiresAt.Some? && o.expiresAt.value < now
  }

  predicate ExpiredPending(o: Order, now: int) {
    o.status == PendingPayment && Overdue(o, now)
  }

  datatype Filter = Stuck | ExpiredWithLink | Expired | PaidTickets | PaidPackages

  predicate Lists(f: Filter, s: State, i: nat, now: int)
    requires i < |s.orders|
  {
    var o := s.orders[i];
    match f
    case Stuck => StuckPending(o, now)
    case ExpiredWithLink => ExpiredPending(o, now) && o.linkId.Some?
    case Expired => ExpiredPending(o, now)
    case PaidTickets => o.kind == EventTicket && o.status == Paid && o.updatedAt < now - STUCK_MIN_AGE_MS
    case PaidPackages =>
      o.kind == ClassPackage && o.status == Paid && i !in s.passes && o.updatedAt < now - STUCK_MIN_AGE_MS
  }

  /** The column of the `ORDER BY`. */
  function SortKey(f: Filter, o: Order): int {
    match f
    case Stuck => o.createdAt
    case ExpiredWithLink => if o.expiresAt.Some? then o.expiresAt.value else 0
    case Expired => if o.expiresAt.Some? then o.expiresAt.value else 0
    case PaidTickets => o.updatedAt
    case PaidPackages => o.updatedAt
  }

  /** Ascending; a tie the query leaves open goes to the older row. */
  predicate Older(f: Filter, orders: seq<Order>, i: nat, j: nat)
    requires i < |orders| && j < |orders|
  {
    || SortKey(f, orders[i]) < SortKey(f, orders[j])
    || (SortKey(f, orders[i]) == SortKey(f, orders[j]) && i < j)
  }

  predicate Sorted(f: Filter, orders: seq<Order>, ids: seq<nat>) {
    && (forall k :: 0 <= k < |ids| ==> ids[k] < |orders|)
    && (forall k, l :: 0 <= k < l < |ids| ==> Older(f, orders, ids[k], ids[l]))
  }

  function Insert(f: Filter, orders: seq<Order>, ids: seq<nat>, i: nat): (r: seq<nat>)
    requires i < |orders| && Sorted(f, orders, ids) && forall k :: 0 <= k < |ids| ==> ids[k] < i
    ensures Sorted(f, orders, r)
    ensures forall k :: k in r <==> k == i || k in ids
  {
    if ids == [] then [i]
    else if Older(f, orders, i, ids[0]) then [i] + ids
    else
      assert forall k :: 0 <= k < |ids[1..]| ==> ids[1..][k] == ids[k + 1];
      var rest := Insert(f, orders, ids[1..], i);
      assert forall k :: 0 <= k < |rest| ==> rest[k] in rest;
      assert forall k :: k in ids[1..] ==> Older(f, orders, ids[0], k);
      [ids[0]] + rest
  }

  function Select(f: Filter, s: State, now: int, n: nat): (ids: seq<nat>)
    requires n <= |s.orders|
    ensures Sorted(f, s.orders, ids)
    ensures forall i :: i in ids <==> 0 <= i < n && Lists(f, s, i, now)
  {
    if n == 0 then []
    else
      var rest := Select(f, s, now, n - 1);
      assert forall k :: 0 <= k < |rest| ==> rest[k] in rest;
      if Lists(f, s, n - 1, now) then Insert(f, s.orders, rest, n - 1) else rest
  }

  function All(f: Filter, s: State, now: int): (ids: seq<nat>)
    ensures Sorted(f, s.orders, ids)
    ensures forall i :: i in ids <==> 0 <= i < |s.orders| && Lists(f, s, i, now)
  {
    Select(f, s, now, |s.orders|)
  }

  function Take(ids: seq<nat>, limit: nat): (r: seq<nat>)
    ensures forall i :: i in r ==> i in ids
  {
    if |ids| <= limit then ids else ids[..limit]
  }
}
