/**
 * The read-only order listings: the delivery partner's three pools, a branch's pending
 * orders restricted to that branch's items, and the paginated admin listing.
 * Each takes the documents the database query would scan, in the order it returns them.
 */
module OrderQueries {
  import opened Common
  import opened OrderModel
  import OrderController

  // ---------------------------------------------------------------------------
  // getAvailableOrdersForDelivery
  // ---------------------------------------------------------------------------

  predicate InAvailablePool(d: OrderState) {
    d.status == Ready || d.status == Packed
  }

  predicate InAssignedPool(d: OrderState) {
    d.status == Assigned || d.status == Arriving
  }

  predicate InDeliveredPool(d: OrderState) {
    d.status == Delivered || d.status == Cancelled
  }

  /**
   * The `$or` query: every ready or packed order (whoever its partner is), plus the
   * assigned, arriving, delivered and cancelled orders of this partner.
   */
  predicate VisibleTo(d: OrderState, partner: Id): (b: bool)
    ensures InAvailablePool(d) ==> b
    ensures b ==> InAvailablePool(d) || InAssignedPool(d) || InDeliveredPool(d)
    ensures b && d.deliveryPartner != Some(partner) ==> InAvailablePool(d)
  {
    InAvailablePool(d)
    || (d.status in {Assigned, Arriving, Delivered, Cancelled} && d.deliveryPartner == Some(partner))
  }

  datatype Pools = Pools(availablePool: seq<OrderState>, assignedPool: seq<OrderState>, deliveredPool: seq<OrderState>)

  /** The three groups the handler replies with; a missing userId is rejected with 400. */
  function DeliveryPools(docs: seq<OrderState>, userId: Option<Id>): (r: Result<Pools, OrderController.OrderError>)
    ensures userId.None? <==> r == Err(OrderController.UserIdRequired)
    ensures r.Ok? ==>
      && (forall d :: d in r.value.availablePool <==> d in docs && InAvailablePool(d))
      && (forall d :: d in r.value.assignedPool <==> d in docs && InAssignedPool(d) && d.deliveryPartner == userId)
      && (forall d :: d in r.value.deliveredPool <==> d in docs && InDeliveredPool(d) && d.deliveryPartner == userId)
  {
    match userId
    case None => Err(OrderController.UserIdRequired)
    case Some(partner) =>
      var visible := Filter(docs, d => VisibleTo(d, partner));
      Ok(Pools(Filter(visible, InAvailablePool), Filter(visible, InAssignedPool), Filter(visible, InDeliveredPool)))
  }

  /** The pools never overlap and together hold exactly the orders the query found. */
  lemma PoolsPartitionQuery(docs: seq<OrderState>, partner: Id)
    ensures
      var visible := Filter(docs, d => VisibleTo(d, partner));
      var p := DeliveryPools(docs, Some(partner)).value;
      && |p.availablePool| + |p.assignedPool| + |p.deliveredPool| == |visible|
      && (forall d :: !(d in p.availablePool && d in p.assignedPool))
      && (forall d :: !(d in p.availablePool && d in p.deliveredPool))
      && (forall d :: !(d in p.assignedPool && d in p.deliveredPool))
  {
    var visible := Filter(docs, d => VisibleTo(d, partner));
    FilterSplitsInThree(visible, InAvailablePool, InAssignedPool, InDeliveredPool);
  }

  /** Another partner's order shows up only in the available pool, and only while ready or packed. */
  lemma OtherPartnersOrdersOnlyAvailable(docs: seq<OrderState>, partner: Id, d: OrderState)
    requires d in docs && d.deliveryPartner != Some(partner)
    ensures var p := DeliveryPools(docs, Some(partner)).value;
      && d !in p.assignedPool && d !in p.deliveredPool
      && (d in p.availablePool <==> InAvailablePool(d))
  {
  }

  // ---------------------------------------------------------------------------
  // getPendingOrdersForBranch
  // ---------------------------------------------------------------------------

  const PendingStatuses: set<Status> := {Pending, Confirmed, Processing, Packing, Packed, Ready}

  function BranchItems(items: seq<LineItem>, branch: Id): (r: seq<LineItem>)
    ensures forall it :: it in r <==> it in items && it.branch == branch
  {
    Filter(items, (it: LineItem) => it.branch == branch)
  }

  /** `status: {$in: pending}` together with `"items.branch": branchId`. */
  predicate PendingFor(d: OrderState, branch: Id): (b: bool)
    ensures b ==> !IsTerminal(d.status) && d.items != []
  {
    d.status in PendingStatuses && exists it :: it in d.items && it.branch == branch
  }

  /**
   * An order document as the listings read it: its key (`_id`), the fields fixed at
   * checkout, and the lifecycle state.
   */
  datatype OrderDoc = OrderDoc(
    key: Id, customer: Id, slot: SlotChoice, createdAt: int, pickupLocations: seq<PickupLocation>, state: OrderState)

  /**
   * What the branch listing sends per order: the document's `_id`, which an inclusive
   * `.select` always keeps, and the selected fields
   * (customer, slot, orderId, status, createdAt, totalPrice, items, pickupLocations).
   */
  datatype BranchOrder = BranchOrder(
    key: Id, customer: Id, slot: SlotChoice, orderId: string, status: Status, createdAt: int,
    totalPrice: int, items: seq<LineItem>, pickupLocations: seq<PickupLocation>)

  /** A pending order, projected and cut down to the items of one branch, which it has at least one of. */
  function ForBranch(d: OrderDoc, branch: Id): (r: BranchOrder)
    requires PendingFor(d.state, branch)
    ensures r.key == d.key
    ensures r.customer == d.customer && r.slot == d.slot && r.createdAt == d.createdAt
    ensures r.pickupLocations == d.pickupLocations
    ensures r.orderId == d.state.orderId && r.status == d.state.status && r.totalPrice == d.state.totalPrice
    ensures r.items != []
    ensures forall it :: it in r.items <==> it in d.state.items && it.branch == branch
  {
    var s := d.state;
    BranchOrder(d.key, d.customer, d.slot, s.orderId, s.status, d.createdAt, s.totalPrice,
                BranchItems(s.items, branch), d.pickupLocations)
  }

  /** The branch's pending orders, each projected and cut down to the items this branch owns. */
  function PendingOrdersForBranch(docs: seq<OrderDoc>, branch: Id): (r: seq<BranchOrder>)
    ensures |r| == |Filter(docs, (d: OrderDoc) => PendingFor(d.state, branch))|
    ensures forall k :: 0 <= k < |r| ==>
      var d := Filter(docs, (d: OrderDoc) => PendingFor(d.state, branch))[k];
      && d in docs && d.state.status in PendingStatuses
      && r[k] == ForBranch(d, branch)
      && r[k].items != []
      && (forall it :: it in r[k].items <==> it in d.state.items && it.branch == branch)
  {
    var m := Filter(docs, (d: OrderDoc) => PendingFor(d.state, branch));
    assert forall k :: 0 <= k < |m| ==> m[k] in m;
    seq(|m|, k requires 0 <= k < |m| => ForBranch(m[k], branch))
  }

  // ---------------------------------------------------------------------------
  // getAllOrders
  // ---------------------------------------------------------------------------

  /** Query-string filters and paging; absent limit and page default to 10 and 1. */
  datatype ListQuery = ListQuery(
    status: Option<Status>, startDate: Option<int>, endDate: Option<int>,
    limit: Option<int>, page: Option<int>)

  predicate MatchesQuery(d: OrderDoc, q: ListQuery): (b: bool)
    ensures q.status.None? && q.startDate.None? && q.endDate.None? ==> b
    ensures b && q.startDate.Some? && q.endDate.Some? ==> q.startDate.value <= q.endDate.value
  {
    && (q.status.Some? ==> d.state.status == q.status.value)
    && (q.startDate.Some? ==> d.createdAt >= q.startDate.value)
    && (q.endDate.Some? ==> d.createdAt <= q.endDate.value)
  }

  datatype Listing = Listing(
    orders: seq<OrderDoc>, currentPage: int, totalPages: Option<int>, totalOrders: nat, hasMore: bool)

  /** Euclidean division bounds: `q = n / d` is the d-multiple just below or at `n`. */
  lemma DivBounds(n: nat, d: int)
    requires d > 0
    ensures (n / d) * d <= n < (n / d) * d + d
  {
    var q := n / d;
    var m := n % d;
    assert n == q * d + m && 0 <= m < d;
  }

  /** `Math.ceil(total / limit)`; Infinity or NaN for a zero limit is `None`. */
  function TotalPages(total: nat, limit: int): (r: Option<int>)
    ensures limit > 0 ==> r.Some? && (r.value - 1) * limit < total <= r.value * limit
    ensures limit < 0 ==> r.Some? && r.value <= 0 && -r.value * -limit <= total < (-r.value + 1) * -limit
    ensures limit == 0 <==> r.None?
  {
    if limit > 0 then
      var c := (total + limit - 1) / limit;
      DivBounds(total + limit - 1, limit);
      assert (c - 1) * limit == c * limit - limit;
      Some(c)
    else if limit < 0 then
      var q := total / -limit;
      DivBounds(total, -limit);
      assert -(-q) * -limit == q * -limit;
      assert (-(-q) + 1) * -limit == q * -limit + -limit;
      Some(-q)
    else None
  }

  function Min(a: int, b: int): int {
    if a <= b then a else b
  }

  /** The error the listing throws: MongoDB refuses a negative skip. */
  datatype ListError = NegativeSkip

  /**
   * One page of the matching documents, which arrive newest first. A limit of 0 means no limit
   * and a negative limit acts as its absolute value, as in MongoDB.
   */
  function GetAllOrders(docs: seq<OrderDoc>, q: ListQuery): (r: Result<Listing, ListError>)
    ensures var limit := q.limit.GetOr(10);
            var page := q.page.GetOr(1);
            var skip := (page - 1) * limit;
            var matching := Filter(docs, d => MatchesQuery(d, q));
      && (skip < 0 <==> r.Err?)
      && (r.Ok? ==>
        && r.value.totalOrders == |matching|
        && r.value.currentPage == page
        && r.value.totalPages == TotalPages(|matching|, limit)
        && (skip >= |matching| ==> r.value.orders == [])
        && (skip < |matching| ==>
              r.value.orders == matching[skip..if limit == 0 then |matching| else Min(|matching|, skip + if limit < 0 then -limit else limit)])
        && (r.value.hasMore <==> skip + |r.value.orders| < |matching|))
  {
    var limit := q.limit.GetOr(10);
    var page := q.page.GetOr(1);
    var skip := (page - 1) * limit;
    var matching := Filter(docs, d => MatchesQuery(d, q));
    if skip < 0 then Err(NegativeSkip)
    else
      var window :=
        if skip >= |matching| then []
        else matching[skip..if limit == 0 then |matching| else Min(|matching|, skip + if limit < 0 then -limit else limit)];
      Ok(Listing(window, page, TotalPages(|matching|, limit), |matching|, skip + |window| < |matching|))
  }

  /** Page `page` ends before the last match exactly when it is not the last page. */
  lemma PageEndsBeforeTotal(total: nat, limit: int, page: int)
    requires limit > 0 && page >= 1
    ensures (page - 1) * limit >= 0
    ensures (page - 1) * limit + limit < total <==> page < TotalPages(total, limit).value
  {
    var tp := TotalPages(total, limit).value;
    MulMonotone(0, page - 1, limit);
    assert (page - 1) * limit + limit == page * limit;
    if page < tp {
      MulMonotone(page, tp - 1, limit);
    } else {
      MulMonotone(tp, page, limit);
    }
  }

  lemma MulMonotone(a: int, b: int, m: int)
    requires a <= b && m > 0
    ensures a * m <= b * m
  {
    assert b * m - a * m == (b - a) * m;
  }

  /** With a positive limit and page ≥ 1, `hasMore` says exactly that a later page exists. */
  lemma HasMoreIffLaterPage(docs: seq<OrderDoc>, q: ListQuery)
    requires q.limit.GetOr(10) > 0 && q.page.GetOr(1) >= 1
    ensures GetAllOrders(docs, q).Ok?
    ensures var l := GetAllOrders(docs, q).value;
      l.hasMore <==> l.currentPage < l.totalPages.value
  {
    var limit := q.limit.GetOr(10);
    var page := q.page.GetOr(1);
    var total := |Filter(docs, d => MatchesQuery(d, q))|;
    var skip := (page - 1) * limit;
    PageEndsBeforeTotal(total, limit, page);
    var l := GetAllOrders(docs, q).value;
    if skip < total {
      assert |l.orders| == Min(total, skip + limit) - skip;
    }
    assert l.hasMore <==> skip + limit < total;
  }
}
