/**
 * The order lifecycle handlers: checkout, branch packing, item cancellation, the
 * fulfilment-centre status handler, delivery-partner assignment and delivery updates.
 * Each handler is one atomic step on an in-memory store of order documents.
 */
module OrderController {
  import opened Common
  import opened OrderModel
  import SequenceIds

  // ---------------------------------------------------------------------------
  // Aggregates over line items (the filter/every/reduce expressions of the handlers)
  // ---------------------------------------------------------------------------

  predicate IsActive(it: LineItem) {
    it.status != Cancelled
  }

  predicate IsPacked(it: LineItem) {
    it.status == Packed
  }

  /** `items.filter(not cancelled).every(packed)`: every non-cancelled item is packed. */
  function AllActivePacked(items: seq<LineItem>): (b: bool)
    ensures b <==> forall i :: 0 <= i < |items| && items[i].status != Cancelled ==> items[i].status == Packed
  {
    EveryOfFilter(items, IsActive, IsPacked);
    Every(Filter(items, IsActive), IsPacked)
  }

  /** The per-branch check: every non-cancelled item of `branch` is packed. */
  function BranchActivePacked(items: seq<LineItem>, branch: Id): (b: bool)
    ensures b <==> forall i :: 0 <= i < |items| && items[i].branch == branch && items[i].status != Cancelled ==> items[i].status == Packed
  {
    var ofBranch := (it: LineItem) => it.branch == branch && IsActive(it);
    EveryOfFilter(items, ofBranch, IsPacked);
    Every(Filter(items, ofBranch), IsPacked)
  }

  /** When every live item is packed, so is every live item of any one branch. */
  lemma AllPackedCoversBranch(items: seq<LineItem>, branch: Id)
    ensures AllActivePacked(items) ==> BranchActivePacked(items, branch)
  {
  }

  /** `items.every(packed)`: the fulfilment-centre gate, which also counts cancelled items. */
  function AllPacked(items: seq<LineItem>): (b: bool)
    ensures b <==> forall i :: 0 <= i < |items| ==> items[i].status == Packed
  {
    Every(items, IsPacked)
  }

  /** `reduce((sum, i) => sum + i.itemTotal, 0)`, a left fold. */
  function SumItemTotals(s: seq<LineItem>): int
  {
    if s == [] then 0 else SumItemTotals(s[..|s| - 1]) + s[|s| - 1].itemTotal
  }

  /** What one item contributes to the recomputed total. */
  function Contribution(it: LineItem): int {
    if IsActive(it) then it.itemTotal else 0
  }

  /** Reference definition: the plain sum of every item's contribution. */
  function ContributionSum(items: seq<LineItem>): int {
    if items == [] then 0 else ContributionSum(items[..|items| - 1]) + Contribution(items[|items| - 1])
  }

  /** One step of the filtered fold: the last item adds its contribution. */
  lemma {:induction false} FilteredSumStep(items: seq<LineItem>)
    requires items != []
    ensures SumItemTotals(Filter(items, IsActive))
         == SumItemTotals(Filter(items[..|items| - 1], IsActive)) + Contribution(items[|items| - 1])
  {
    var n := |items|;
    assert items == items[..n - 1] + [items[n - 1]];
    FilterAppend(items[..n - 1], [items[n - 1]], IsActive);
    var f := Filter(items[..n - 1], IsActive);
    if IsActive(items[n - 1]) {
      assert Filter([items[n - 1]], IsActive) == [items[n - 1]];
      assert (f + [items[n - 1]])[..|f|] == f;
    } else {
      assert Filter([items[n - 1]], IsActive) == [];
      assert f + [] == f;
    }
  }

  /** The handler's filter-then-reduce agrees with the reference sum. */
  lemma {:induction false} FilteredSumIsContributionSum(items: seq<LineItem>)
    ensures SumItemTotals(Filter(items, IsActive)) == ContributionSum(items)
    decreases |items|
  {
    if items != [] {
      FilteredSumStep(items);
      FilteredSumIsContributionSum(items[..|items| - 1]);
    }
  }

  /** Σ itemTotal over the non-cancelled items, which is the sum of the items' contributions. */
  function ActiveItemsTotal(items: seq<LineItem>): (r: int)
    ensures r == ContributionSum(items)
  {
    FilteredSumIsContributionSum(items);
    SumItemTotals(Filter(items, IsActive))
  }

  /**
   * The total written by cancelOrderItem: the live items' contributions plus the charges,
   * minus the discount, with absent charges and discount counting as 0.
   */
  function RecomputedTotal(items: seq<LineItem>, deliveryCharge: Option<int>, handlingCharge: Option<int>, discountAmt: Option<int>): (r: int)
    ensures r == ContributionSum(items) + OrZero(deliveryCharge) + OrZero(handlingCharge) - OrZero(discountAmt)
    ensures deliveryCharge.None? && handlingCharge.None? && discountAmt.None? ==> r == ContributionSum(items)
  {
    ActiveItemsTotal(items) + OrZero(deliveryCharge) + OrZero(handlingCharge) - OrZero(discountAmt)
  }

  lemma {:induction false} ContributionSumUpdate(items: seq<LineItem>, i: nat, it: LineItem)
    requires i < |items|
    ensures ContributionSum(items[i := it]) == ContributionSum(items) - Contribution(items[i]) + Contribution(it)
  {
    var n := |items|;
    var items' := items[i := it];
    if i < n - 1 {
      assert items'[..n - 1] == items[..n - 1][i := it];
      ContributionSumUpdate(items[..n - 1], i, it);
    } else {
      assert items'[..n - 1] == items[..n - 1];
    }
  }

  /**
   * Replacing one item changes the recomputed total by exactly the difference of the two
   * contributions: recomputing from scratch agrees with a delta update, and a cancelled item
   * never counts.
   */
  lemma ActiveTotalUpdate(items: seq<LineItem>, i: nat, it: LineItem)
    requires i < |items|
    ensures ActiveItemsTotal(items[i := it]) == ActiveItemsTotal(items) - Contribution(items[i]) + Contribution(it)
  {
    ContributionSumUpdate(items, i, it);
  }

  /** Cancelling a live item lowers the items' part of the total by exactly its itemTotal. */
  lemma CancelRemovesItemTotal(items: seq<LineItem>, i: nat, reason: string)
    requires i < |items| && items[i].status != Cancelled
    ensures ActiveItemsTotal(items[i := items[i].(status := Cancelled, cancellationReason := Some(reason))])
         == ActiveItemsTotal(items) - items[i].itemTotal
  {
    ActiveTotalUpdate(items, i, items[i].(status := Cancelled, cancellationReason := Some(reason)));
  }

  /** Once every item is cancelled, the "all active packed" check holds vacuously. */
  lemma AllCancelledCountsAsPacked(items: seq<LineItem>)
    requires forall i :: 0 <= i < |items| ==> items[i].status == Cancelled
    ensures AllActivePacked(items)
    ensures items != [] ==> !AllPacked(items)
  {
  }

  /** `order.items.id(itemId)` / `items.find(...)`: the first item carrying `itemId`. */
  function FindItem(items: seq<LineItem>, itemId: Id): (r: Option<nat>)
    ensures r.Some? ==> r.value < |items| && items[r.value].id == itemId
    ensures r.Some? ==> forall j :: 0 <= j < r.value ==> items[j].id != itemId
    ensures r.None? ==> forall j :: 0 <= j < |items| ==> items[j].id != itemId
  {
    if items == [] then None
    else if items[0].id == itemId then Some(0)
    else
      var r := FindItem(items[1..], itemId);
      if r.Some? then Some(r.value + 1) else None
  }

  // ---------------------------------------------------------------------------
  // Checkout: line items and pickup locations
  // ---------------------------------------------------------------------------

  /** One cart entry of the checkout request. */
  datatype CartLine = CartLine(product: Id, variantId: Id, branch: Id, name: string, image: string, price: int, count: int)

  datatype Branch = Branch(latitude: int, longitude: int, address: string)

  datatype Address = Address(
    latitude: Option<int>, longitude: Option<int>,
    houseNo: Option<string>, streetAddress: Option<string>, landmark: Option<string>,
    city: Option<string>, state: Option<string>, pinCode: Option<string>, country: Option<string>)

  const NoAddressText: string := "No address available! You can contact support team"

  /** An address with no part filled in, which is what `customerData.address || {}` gives. */
  const EmptyAddress: Address := Address(None, None, None, None, None, None, None, None, None)

  /** The delivery-location snapshot: every missing part of the address defaults to 0 or "". */
  function DeliveryLocationOf(address: Option<Address>): (r: DeliveryLocation)
    ensures address.None? ==> r == DeliveryLocation(0, 0, "", "", "", "", "", "", "")
    ensures address.Some? ==>
      (address.value.latitude.None? ==> r.latitude == 0) && (address.value.latitude.Some? ==> r.latitude == address.value.latitude.value)
    ensures address.Some? ==>
      (address.value.longitude.None? ==> r.longitude == 0) && (address.value.longitude.Some? ==> r.longitude == address.value.longitude.value)
    ensures address.Some? ==>
      (address.value.houseNo.None? ==> r.houseNo == "") && (address.value.houseNo.Some? ==> r.houseNo == address.value.houseNo.value)
    ensures address.Some? ==>
      (address.value.streetAddress.None? ==> r.streetAddress == "") && (address.value.streetAddress.Some? ==> r.streetAddress == address.value.streetAddress.value)
    ensures address.Some? ==>
      (address.value.landmark.None? ==> r.landmark == "") && (address.value.landmark.Some? ==> r.landmark == address.value.landmark.value)
    ensures address.Some? ==>
      (address.value.city.None? ==> r.city == "") && (address.value.city.Some? ==> r.city == address.value.city.value)
    ensures address.Some? ==>
      (address.value.state.None? ==> r.state == "") && (address.value.state.Some? ==> r.state == address.value.state.value)
    ensures address.Some? ==>
      (address.value.pinCode.None? ==> r.pinCode == "") && (address.value.pinCode.Some? ==> r.pinCode == address.value.pinCode.value)
    ensures address.Some? ==>
      (address.value.country.None? ==> r.country == "") && (address.value.country.Some? ==> r.country == address.value.country.value)
  {
    match address
    case None => DeliveryLocation(0, 0, "", "", "", "", "", "", "")
    case Some(a) =>
      DeliveryLocation(
        OrZero(a.latitude), OrZero(a.longitude),
        a.houseNo.GetOr(""), a.streetAddress.GetOr(""), a.landmark.GetOr(""),
        a.city.GetOr(""), a.state.GetOr(""), a.pinCode.GetOr(""), a.country.GetOr(""))
  }

  /** A customer without an address gets the same snapshot as one with an empty address. */
  lemma MissingAddressIsEmpty()
    ensures DeliveryLocationOf(None) == DeliveryLocationOf(Some(EmptyAddress))
  {
  }

  /** A fully filled address is copied into the snapshot part for part. */
  lemma DeliveryLocationCopiesAddress(l: DeliveryLocation)
    ensures DeliveryLocationOf(Some(Address(
              Some(l.latitude), Some(l.longitude), Some(l.houseNo), Some(l.streetAddress), Some(l.landmark),
              Some(l.city), Some(l.state), Some(l.pinCode), Some(l.country)))) == l
  {
  }

  /** The enhanced line item built for cart entry `k`; `units` are the product's variant quantities. */
  function NewLineItem(k: nat, c: CartLine, units: map<Id, string>): (it: LineItem)
    ensures it.itemTotal == c.price * c.count
    ensures it.status == DefaultItemStatus && it.cancellationReason == None
    ensures it.id == k && it.branch == c.branch && it.product == c.product && it.count == c.count && it.price == c.price
    ensures it.variantId == c.variantId && it.name == c.name && it.image == c.image
    ensures c.variantId in units ==> it.unit == units[c.variantId]
    ensures c.variantId !in units ==> it.unit == ""
  {
    LineItem(k, c.product, c.variantId, c.branch, c.name, c.image, c.count, c.price,
             c.price * c.count, if c.variantId in units then units[c.variantId] else "", DefaultItemStatus, None)
  }

  predicate ProductsKnown(cart: seq<CartLine>, products: map<Id, map<Id, string>>) {
    forall k :: 0 <= k < |cart| ==> cart[k].product in products
  }

  function NewLineItems(cart: seq<CartLine>, products: map<Id, map<Id, string>>): (items: seq<LineItem>)
    requires ProductsKnown(cart, products)
    ensures |items| == |cart|
    ensures forall k :: 0 <= k < |cart| ==> items[k] == NewLineItem(k, cart[k], products[cart[k].product])
  {
    seq(|cart|, k requires 0 <= k < |cart| => NewLineItem(k, cart[k], products[cart[k].product]))
  }

  /** The branch ids referenced by the cart, in cart order. */
  function CartBranchIds(cart: seq<CartLine>): (ids: seq<Id>)
    ensures |ids| == |cart|
    ensures forall k :: 0 <= k < |cart| ==> ids[k] == cart[k].branch
  {
    seq(|cart|, k requires 0 <= k < |cart| => cart[k].branch)
  }

  predicate Distinct(s: seq<Id>) {
    forall i, j :: 0 <= i < j < |s| ==> s[i] != s[j]
  }

  /** The distinct ids of `s` that are `known`, in order of first reference. */
  function DistinctKnown(s: seq<Id>, known: set<Id>): (r: seq<Id>)
    ensures forall x :: x in r <==> x in s && x in known
    ensures Distinct(r)
  {
    if s == [] then []
    else
      var init := s[..|s| - 1];
      var last := s[|s| - 1];
      assert s == init + [last];
      if last in init || last !in known then DistinctKnown(init, known)
      else DistinctKnown(init, known) + [last]
  }

  function Elements(s: seq<Id>): set<Id> {
    set x | x in s
  }

  /** A duplicate-free list has as many entries as it has distinct elements. */
  lemma {:induction false} DistinctCardinality(s: seq<Id>)
    requires Distinct(s)
    ensures |Elements(s)| == |s|
  {
    if s != [] {
      var init := s[..|s| - 1];
      var last := s[|s| - 1];
      assert s == init + [last];
      assert Distinct(init);
      DistinctCardinality(init);
      assert Elements(s) == Elements(init) + {last};
      assert last !in Elements(init);
    }
  }

  function PickupFor(id: Id, b: Branch): PickupLocation {
    PickupLocation(id, b.latitude, b.longitude, if b.address != "" then b.address else NoAddressText)
  }

  /** The set of branches the cart references. */
  function CartBranches(cart: seq<CartLine>): set<Id> {
    set k | 0 <= k < |cart| :: cart[k].branch
  }

  /** Every referenced branch appears in the cart's branch-id list and vice versa. */
  lemma CartBranchesListed(cart: seq<CartLine>)
    ensures forall b :: b in CartBranchIds(cart) <==> b in CartBranches(cart)
  {
    forall b | b in CartBranches(cart)
      ensures b in CartBranchIds(cart)
    {
      var k :| 0 <= k < |cart| && cart[k].branch == b;
      assert CartBranchIds(cart)[k] == b;
    }
  }

  /** `uniqueBranchIds` restricted to the branches that exist, in order of first reference. */
  function PickupBranchIds(cart: seq<CartLine>, branches: map<Id, Branch>): (ids: seq<Id>)
    ensures forall b :: b in ids <==> b in CartBranches(cart) && b in branches
    ensures Distinct(ids)
    ensures |ids| == |CartBranches(cart) * branches.Keys|
  {
    var ids := DistinctKnown(CartBranchIds(cart), branches.Keys);
    CartBranchesListed(cart);
    DistinctCardinality(ids);
    assert Elements(ids) == CartBranches(cart) * branches.Keys;
    ids
  }

  /** The branches a list of pickup locations covers. */
  function PickedBranches(r: seq<PickupLocation>): set<Id> {
    set p | p in r :: p.branch
  }

  /**
   * One pickup location per distinct referenced branch that exists, however many items
   * each branch contributes; a branch with no address gets the support text.
   */
  function PickupLocations(cart: seq<CartLine>, branches: map<Id, Branch>): (r: seq<PickupLocation>)
    ensures forall k :: 0 <= k < |r| ==> r[k].branch in branches && r[k] == PickupFor(r[k].branch, branches[r[k].branch])
    ensures PickedBranches(r) == CartBranches(cart) * branches.Keys
    ensures forall i, j :: 0 <= i < j < |r| ==> r[i].branch != r[j].branch
    ensures |r| == |CartBranches(cart) * branches.Keys|
  {
    var ids := PickupBranchIds(cart, branches);
    var r := seq(|ids|, k requires 0 <= k < |ids| => PickupFor(ids[k], branches[ids[k]]));
    PickedBranchesAre(ids, branches, r);
    r
  }

  lemma PickedBranchesAre(ids: seq<Id>, branches: map<Id, Branch>, r: seq<PickupLocation>)
    requires forall b :: b in ids ==> b in branches
    requires |r| == |ids| && forall k :: 0 <= k < |ids| ==> r[k] == PickupFor(ids[k], branches[ids[k]])
    ensures PickedBranches(r) == Elements(ids)
  {
    forall b | b in ids
      ensures b in PickedBranches(r)
    {
      var k :| 0 <= k < |ids| && ids[k] == b;
      assert r[k] in r;
    }
  }

  // ---------------------------------------------------------------------------
  // Handler outcomes
  // ---------------------------------------------------------------------------

  datatype OrderError =
    | CustomerNotFound | ServerError
    | UserIdRequired | PartnerNotFound | OrderNotFound | NotAvailableForAssignment
    | InvalidStatus | AlreadyAssigned | NotAssignableState
    | ItemNotFound | OtherBranchItem | ItemAlreadyCancelled
    | CompletedOrder | NotAllItemsPacked | InvalidItemStatus | InvalidItemIndex
    | NotAuthorized | AlreadyCompleted

  /** The HTTP status each rejection is sent with. */
  function HttpStatus(e: OrderError): (code: int)
    ensures e == ServerError <==> code == 500
    ensures e in {OrderNotFound, ItemNotFound, CustomerNotFound, PartnerNotFound} <==> code == 404
    ensures e in {OtherBranchItem, NotAuthorized} <==> code == 403
    ensures code in {400, 403, 404, 500}
  {
    match e
    case ServerError => 500
    case CustomerNotFound | PartnerNotFound | OrderNotFound | ItemNotFound => 404
    case OtherBranchItem | NotAuthorized => 403
    case _ => 400
  }

  /** The message updateItemPackingStatus replies with. */
  datatype PackMessage = OrderMarkedPacked | BranchPackedWaiting | ItemStatusUpdated(itemCancelled: bool)

  const PackingStatuses: set<Status> := {Packing, Packed, Cancelled}
  const LegacyStatuses: set<Status> := {Available, Processing, Dispatched, Delivered, Cancelled}
  const PartnerStatuses: set<Status> := {Arriving, Delivered, Cancelled, Upi, Cash}
  const FcItemStatuses: set<Status> := {Packing, Packed, Cancelled, Confirmed}

  /**
   * Which written statuses lie outside the schema enums. `save()` validates them, so in the
   * running system those writes are refused; `findByIdAndUpdate` does not, so they are stored.
   */
  lemma WrittenStatusesAgainstEnums()
    ensures forall s :: s in PackingStatuses ==> (InItemStatusEnum(s) <==> s != Cancelled)
    ensures forall s :: s in FcItemStatuses ==> (InItemStatusEnum(s) <==> s in {Packing, Packed})
    ensures forall s :: s in PartnerStatuses ==> (InOrderStatusEnum(s) <==> s in {Arriving, Delivered, Cancelled})
    ensures forall s :: s in LegacyStatuses ==> (InOrderStatusEnum(s) <==> s in {Delivered, Cancelled})
    ensures !InOrderStatusEnum(Processing) && !InOrderStatusEnum(Confirmed)
  {
  }

  predicate ValidIndex(itemIndex: Option<int>, n: nat) {
    itemIndex.Some? && 0 <= itemIndex.value < n
  }

  /** The state after fulfilment sets item `i` to `s` and re-derives `packed` from all items. */
  function FcItemUpdate(s0: OrderState, i: nat, s: Status, now: int): (s1: OrderState)
    requires i < |s0.items|
    ensures s1.items == s0.items[i := s0.items[i].(status := s)]
    ensures AllPacked(s1.items) ==> s1.status == Packed && s1.timestamps == s0.timestamps[Packed := now]
    ensures !AllPacked(s1.items) ==> s1.status == s0.status && s1.timestamps == s0.timestamps
    ensures s1.(items := s0.items, status := s0.status, timestamps := s0.timestamps) == s0
  {
    var items := s0.items[i := s0.items[i].(status := s)];
    if AllPacked(items) then s0.(items := items, status := Packed, timestamps := s0.timestamps[Packed := now])
    else s0.(items := items)
  }

  // ---------------------------------------------------------------------------
  // The store and its handlers
  // ---------------------------------------------------------------------------

  /**
   * `new Order({...}).save()` as createOrder issues it: the new document carries the schema
   * defaults and the freshly drawn "ORD" id.
   */
  method SaveNewOrder(
    customer: Id, location: DeliveryLocation, pickups: seq<PickupLocation>, items: seq<LineItem>,
    totalPrice: int, slot: SlotChoice, savings: Option<int>, handlingCharge: Option<int>,
    deliveryCharge: Option<int>, discountAmt: Option<int>, counters: SequenceIds.Counters, now: int)
    returns (o: Order)
    modifies counters
    ensures fresh(o)
    ensures o.customer == customer && o.deliveryLocation == location && o.pickupLocations == pickups
    ensures o.slot == slot && o.createdAt == now
    ensures o.deliveryCharge == deliveryCharge && o.handlingCharge == handlingCharge
    ensures o.savings == savings && o.discountAmt == discountAmt
    ensures o.State() == OrderState(
              SequenceIds.SequenceId("ORD", old(counters.Current("orderId")) + 1), false,
              DefaultOrderStatus, items, map[], totalPrice, None, DefaultPayment)
    ensures counters.values == old(counters.values)["orderId" := old(counters.Current("orderId")) + 1]
  {
    o := new Order(customer, location, pickups, slot, deliveryCharge, handlingCharge, savings,
                   discountAmt, totalPrice, items, now);
    o.Save(counters);
  }

  /**
   * The effect of a packing update on item `i` of `o`: the item takes the new status, and the
   * order becomes packed, with packedAt stamped, once every live item is packed.
   */
  method SetPackingStatus(o: Order, i: nat, branchId: Id, newStatus: Status, now: int) returns (msg: PackMessage)
    requires i < |o.items|
    modifies o`items, o`status, o`timestamps
    ensures var items := old(o.items)[i := old(o.items)[i].(status := newStatus)];
      && o.State() == old(o.State()).(
           items := items,
           status := if AllActivePacked(items) then Packed else old(o.status),
           timestamps := if AllActivePacked(items) then old(o.timestamps)[Packed := now] else old(o.timestamps))
      && (msg == OrderMarkedPacked <==> AllActivePacked(items))
      && (msg == BranchPackedWaiting <==> BranchActivePacked(items, branchId) && !AllActivePacked(items))
      && (msg.ItemStatusUpdated? ==> msg == ItemStatusUpdated(newStatus == Cancelled))
  {
    var items := o.items[i := o.items[i].(status := newStatus)];
    AllPackedCoversBranch(items, branchId);
    o.items := items;
    if BranchActivePacked(items, branchId) {
      if AllActivePacked(items) {
        o.status := Packed;
        o.timestamps := o.timestamps[Packed := now];
        msg := OrderMarkedPacked;
      } else {
        msg := BranchPackedWaiting;
      }
    } else {
      msg := ItemStatusUpdated(newStatus == Cancelled);
    }
  }

  /** The effect of a fulfilment-centre item update on item `i` of `o`. */
  method SetFcItemStatus(o: Order, i: nat, status: Status, now: int)
    requires i < |o.items|
    modifies o`items, o`status, o`timestamps
    ensures o.State() == FcItemUpdate(old(o.State()), i, status, now)
  {
    o.items := o.items[i := o.items[i].(status := status)];
    if AllPacked(o.items) {
      o.status := Packed;
      o.timestamps := o.timestamps[Packed := now];
    }
  }

  /**
   * The order collection plus the reference data the handlers look up
   * (customers with their addresses, delivery partners, branches, product variants).
   */
  class OrderStore {
    var orders: map<Id, Order>
    var nextKey: Id
    const customers: map<Id, Option<Address>>
    const partners: set<Id>
    const branches: map<Id, Branch>
    /** product id -> (variant id -> variant quantity label such as "1kg") */
    const products: map<Id, map<Id, string>>

    /**
     * Keys are below the next key to hand out, and distinct keys hold distinct documents,
     * so a handler that may change `Target(key)` leaves every other key's order alone.
     */
    ghost predicate Valid()
      reads this
    {
      && (forall k :: k in orders ==> k < nextKey)
      && (forall k, j :: k in orders && j in orders && k != j ==> orders[k] != orders[j])
    }

    constructor (customers: map<Id, Option<Address>>, partners: set<Id>, branches: map<Id, Branch>, products: map<Id, map<Id, string>>)
      ensures Valid() && orders == map[]
      ensures this.customers == customers && this.partners == partners
      ensures this.branches == branches && this.products == products
    {
      orders := map[];
      nextKey := 0;
      this.customers := customers;
      this.partners := partners;
      this.branches := branches;
      this.products := products;
    }

    /** The one document a handler on `key` may change. */
    function Target(key: Id): set<Order>
      reads this
    {
      if key in orders then {orders[key]} else {}
    }

    /**
     * createOrder: builds the line items (itemTotal = price × count), one pickup location per
     * existing referenced branch and the delivery-location snapshot, then saves the new order,
     * which draws its "ORD" id. The client's totalPrice is stored as sent.
     */
    method CreateOrder(
      customerId: Id, cart: seq<CartLine>, totalPrice: int, slot: SlotChoice,
      savings: Option<int>, handlingCharge: Option<int>, deliveryCharge: Option<int>,
      discountAmt: Option<int>, counters: SequenceIds.Counters, now: int)
      returns (r: Result<Id, OrderError>)
      requires Valid()
      modifies this, counters
      ensures Valid()
      ensures customerId !in customers ==> r == Err(CustomerNotFound)
      ensures customerId in customers && !ProductsKnown(cart, products) ==> r == Err(ServerError)
      ensures r.Err? ==> orders == old(orders) && counters.values == old(counters.values)
      ensures r.Ok? <==> customerId in customers && ProductsKnown(cart, products)
      ensures r.Ok? ==> r.value !in old(orders) && r.value in orders && orders == old(orders)[r.value := orders[r.value]]
      ensures r.Ok? ==>
        var o := orders[r.value];
        && fresh(o)
        && o.customer == customerId
        && o.items == NewLineItems(cart, products)
        && o.pickupLocations == PickupLocations(cart, branches)
        && o.deliveryLocation == DeliveryLocationOf(customers[customerId])
        && o.slot == slot && o.createdAt == now
        && o.deliveryCharge == deliveryCharge && o.handlingCharge == handlingCharge
        && o.savings == savings && o.discountAmt == discountAmt
        && o.State() == OrderState(
             SequenceIds.SequenceId("ORD", old(counters.Current("orderId")) + 1), false,
             DefaultOrderStatus, NewLineItems(cart, products), map[], totalPrice, None, DefaultPayment)
        && counters.values == old(counters.values)["orderId" := old(counters.Current("orderId")) + 1]
    {
      if customerId !in customers {
        return Err(CustomerNotFound);
      }
      if !ProductsKnown(cart, products) {
        // productDoc is null: reading its variants throws
        return Err(ServerError);
      }
      var items := NewLineItems(cart, products);
      var o := SaveNewOrder(customerId, DeliveryLocationOf(customers[customerId]), PickupLocations(cart, branches),
                            items, totalPrice, slot, savings, handlingCharge, deliveryCharge,
                            discountAmt, counters, now);
      var key := nextKey;
      orders := orders[key := o];
      nextKey := nextKey + 1;
      r := Ok(key);
    }

    /**
     * comfirmOrder: a delivery partner takes a ready or packed order. It does not look at an
     * existing deliveryPartner, so a second partner can take over an order sent back to ready.
     */
    method ConfirmOrder(key: Id, userId: Option<Id>, now: int) returns (r: Result<(), OrderError>)
      modifies Target(key)
      ensures userId.None? ==> r == Err(UserIdRequired)
      ensures userId.Some? && userId.value !in partners ==> r == Err(PartnerNotFound)
      ensures userId.Some? && userId.value in partners && key !in orders ==> r == Err(OrderNotFound)
      ensures key in orders ==>
        var o := orders[key];
        && (r.Ok? <==> userId.Some? && userId.value in partners && old(o.status) in {Ready, Packed})
        && (userId.Some? && userId.value in partners && old(o.status) !in {Ready, Packed} ==> r == Err(NotAvailableForAssignment))
        && (r.Ok? ==> o.State() == old(o.State()).(deliveryPartner := userId, status := Assigned,
                                                    timestamps := old(o.timestamps)[Assigned := now]))
        && (r.Err? ==> o.State() == old(o.State()))
    {
      if userId.None? {
        return Err(UserIdRequired);
      }
      if userId.value !in partners {
        return Err(PartnerNotFound);
      }
      if key !in orders {
        return Err(OrderNotFound);
      }
      var o := orders[key];
      if o.status !in {Ready, Packed} {
        return Err(NotAvailableForAssignment);
      }
      o.deliveryPartner := userId;
      o.status := Assigned;
      o.timestamps := o.timestamps[Assigned := now];
      r := Ok(());
    }

    /**
     * updateOrderStatus: an older handler that writes any of available, processing, dispatched,
     * delivered or cancelled, from any current status (even a terminal one), stamping nothing.
     */
    method UpdateOrderStatus(key: Id, status: Status) returns (r: Result<(), OrderError>)
      modifies Target(key)
      ensures status !in LegacyStatuses ==> r == Err(InvalidStatus)
      ensures status in LegacyStatuses && key !in orders ==> r == Err(OrderNotFound)
      ensures key in orders ==>
        var o := orders[key];
        && (r.Ok? <==> status in LegacyStatuses)
        && (r.Ok? ==> o.State() == old(o.State()).(status := status))
        && (r.Err? ==> o.State() == old(o.State()))
    {
      if status !in LegacyStatuses {
        return Err(InvalidStatus);
      }
      if key !in orders {
        return Err(OrderNotFound);
      }
      var o := orders[key];
      o.status := status;
      r := Ok(());
    }

    /**
     * acceptOrderByDeliveryPartner: the older assignment path. Rejects an order that already has
     * a partner or is not `available`; otherwise sets the partner and moves it to `processing`.
     */
    method AcceptOrderByDeliveryPartner(key: Id, userId: Id, now: int) returns (r: Result<(), OrderError>)
      modifies Target(key)
      ensures userId !in partners ==> r == Err(PartnerNotFound)
      ensures userId in partners && key !in orders ==> r == Err(OrderNotFound)
      ensures key in orders ==>
        var o := orders[key];
        && (userId in partners && old(o.deliveryPartner).Some? ==> r == Err(AlreadyAssigned))
        && (userId in partners && old(o.deliveryPartner).None? && old(o.status) != Available ==> r == Err(NotAssignableState))
        && (r.Ok? <==> userId in partners && old(o.deliveryPartner).None? && old(o.status) == Available)
        && (r.Ok? ==> o.State() == old(o.State()).(deliveryPartner := Some(userId), status := Processing,
                                                    timestamps := old(o.timestamps)[Processing := now]))
        && (r.Err? ==> o.State() == old(o.State()))
    {
      if userId !in partners {
        return Err(PartnerNotFound);
      }
      if key !in orders {
        return Err(OrderNotFound);
      }
      var o := orders[key];
      if o.deliveryPartner.Some? {
        return Err(AlreadyAssigned);
      }
      if o.status != Available {
        return Err(NotAssignableState);
      }
      o.deliveryPartner := Some(userId);
      o.status := Processing;
      o.timestamps := o.timestamps[Processing := now];
      r := Ok(());
    }

    /**
     * updateItemPackingStatus: branch staff set one of their own items to packing, packed or
     * cancelled. The order becomes `packed` (packedAt re-stamped) exactly when, afterwards,
     * every non-cancelled item is packed; otherwise its status is untouched. Terminal orders
     * are not rejected.
     */
    method UpdateItemPackingStatus(key: Id, itemId: Id, branchId: Id, newStatus: Status, now: int)
      returns (r: Result<PackMessage, OrderError>)
      modifies Target(key)
      ensures newStatus !in PackingStatuses ==> r == Err(InvalidStatus)
      ensures newStatus in PackingStatuses && key !in orders ==> r == Err(OrderNotFound)
      ensures key in orders ==>
        var o := orders[key];
        var found := FindItem(old(o.items), itemId);
        && (newStatus in PackingStatuses && found.None? ==> r == Err(ItemNotFound))
        && (newStatus in PackingStatuses && found.Some? && old(o.items)[found.value].branch != branchId ==> r == Err(OtherBranchItem))
        && (r.Ok? <==> newStatus in PackingStatuses && found.Some? && old(o.items)[found.value].branch == branchId)
        && (r.Err? ==> o.State() == old(o.State()))
        && (r.Ok? ==>
              var items := old(o.items)[found.value := old(o.items)[found.value].(status := newStatus)];
              && o.State() == old(o.State()).(
                   items := items,
                   status := if AllActivePacked(items) then Packed else old(o.status),
                   timestamps := if AllActivePacked(items) then old(o.timestamps)[Packed := now] else old(o.timestamps))
              && (r.value == OrderMarkedPacked <==> AllActivePacked(items))
              && (r.value == BranchPackedWaiting <==> BranchActivePacked(items, branchId) && !AllActivePacked(items))
              && (r.value.ItemStatusUpdated? ==> r.value == ItemStatusUpdated(newStatus == Cancelled)))
    {
      if newStatus !in PackingStatuses {
        return Err(InvalidStatus);
      }
      if key !in orders {
        return Err(OrderNotFound);
      }
      var o := orders[key];
      var found := FindItem(o.items, itemId);
      if found.None? {
        return Err(ItemNotFound);
      }
      var i := found.value;
      if o.items[i].branch != branchId {
        return Err(OtherBranchItem);
      }
      var msg := SetPackingStatus(o, i, branchId, newStatus, now);
      r := Ok(msg);
    }

    /**
     * cancelOrderItem: cancels one live item, keeps the reason ("Not specified" when none is
     * given) and recomputes totalPrice from scratch. Terminal orders are not rejected.
     */
    method CancelOrderItem(key: Id, itemId: Id, reason: Option<string>) returns (r: Result<(), OrderError>)
      modifies Target(key)
      ensures key !in orders ==> r == Err(OrderNotFound)
      ensures key in orders ==>
        var o := orders[key];
        var found := FindItem(old(o.items), itemId);
        && (found.None? ==> r == Err(ItemNotFound))
        && (found.Some? && old(o.items)[found.value].status == Cancelled ==> r == Err(ItemAlreadyCancelled))
        && (r.Ok? <==> found.Some? && old(o.items)[found.value].status != Cancelled)
        && (r.Err? ==> o.State() == old(o.State()))
        && (r.Ok? ==>
              var it := old(o.items)[found.value];
              var items := old(o.items)[found.value := it.(status := Cancelled,
                             cancellationReason := Some(if TruthyString(reason) then reason.value else "Not specified"))];
              && o.State() == old(o.State()).(items := items,
                   totalPrice := RecomputedTotal(items, o.deliveryCharge, o.handlingCharge, o.discountAmt))
              && o.totalPrice == ActiveItemsTotal(old(o.items)) - it.itemTotal
                                 + OrZero(o.deliveryCharge) + OrZero(o.handlingCharge) - OrZero(o.discountAmt))
    {
      if key !in orders {
        return Err(OrderNotFound);
      }
      var o := orders[key];
      var found := FindItem(o.items, itemId);
      if found.None? {
        return Err(ItemNotFound);
      }
      var i := found.value;
      if o.items[i].status == Cancelled {
        return Err(ItemAlreadyCancelled);
      }
      var why := if TruthyString(reason) then reason.value else "Not specified";
      CancelRemovesItemTotal(o.items, i, why);
      o.items := o.items[i := o.items[i].(status := Cancelled, cancellationReason := Some(why))];
      o.totalPrice := RecomputedTotal(o.items, o.deliveryCharge, o.handlingCharge, o.discountAmt);
      r := Ok(());
    }

    /**
     * updateOrderStatusByFC: rejects any change to a cancelled or delivered order. `confirmed`
     * is idempotent and stamps confirmedAt only once; `ready` needs every item, cancelled ones
     * included, to be packed; any other status is an item update by index, after which the
     * order is `packed` when every item is.
     */
    method UpdateOrderStatusByFC(key: Id, status: Status, itemIndex: Option<int>, now: int)
      returns (r: Result<(), OrderError>)
      modifies Target(key)
      ensures key !in orders ==> r == Err(OrderNotFound)
      ensures key in orders ==>
        var o := orders[key];
        var s0 := old(o.State());
        && (IsTerminal(s0.status) ==> r == Err(CompletedOrder))
        && (r.Err? ==> o.State() == s0)
        && (!IsTerminal(s0.status) && status == Confirmed ==>
              && r == Ok(())
              && o.State() == if s0.status == Confirmed then s0
                              else s0.(status := Confirmed,
                                       timestamps := if Confirmed in s0.timestamps then s0.timestamps
                                                     else s0.timestamps[Confirmed := now]))
        && (!IsTerminal(s0.status) && status == Ready ==>
              && (r.Ok? <==> AllPacked(s0.items))
              && (r.Err? ==> r == Err(NotAllItemsPacked))
              && (r.Ok? ==> o.State() == s0.(status := Ready, timestamps := s0.timestamps[Ready := now])))
        && (!IsTerminal(s0.status) && status !in {Ready, Confirmed} ==>
              && (status !in FcItemStatuses ==> r == Err(InvalidItemStatus))
              && (status in FcItemStatuses && !ValidIndex(itemIndex, |s0.items|) ==> r == Err(InvalidItemIndex))
              && (r.Ok? <==> status in FcItemStatuses && ValidIndex(itemIndex, |s0.items|))
              && (r.Ok? ==> o.State() == FcItemUpdate(s0, itemIndex.value, status, now)))
    {
      if key !in orders {
        return Err(OrderNotFound);
      }
      var o := orders[key];
      if IsTerminal(o.status) {
        return Err(CompletedOrder);
      }
      if status == Ready || status == Confirmed {
        if status == Confirmed && o.status != Confirmed {
          o.status := Confirmed;
          if Confirmed !in o.timestamps {
            o.timestamps := o.timestamps[Confirmed := now];
          }
        } else if status == Ready {
          if !AllPacked(o.items) {
            return Err(NotAllItemsPacked);
          }
          o.status := Ready;
          o.timestamps := o.timestamps[Ready := now];
        }
      } else {
        if status !in FcItemStatuses {
          return Err(InvalidItemStatus);
        }
        if !ValidIndex(itemIndex, |o.items|) {
          return Err(InvalidItemIndex);
        }
        SetFcItemStatus(o, itemIndex.value, status, now);
      }
      r := Ok(());
    }

    /**
     * updateOrderStatusByDeliveryPartner: only the assigned partner may move a non-terminal
     * order to arriving, delivered, cancelled (or the stray "upi"/"cash"), stamping
     * `<status>At`; payment status and method change only when given.
     */
    method UpdateOrderStatusByDeliveryPartner(
      key: Id, status: Status, paymentStatus: Option<string>, paymentMethod: Option<string>,
      userId: Option<Id>, now: int)
      returns (r: Result<(), OrderError>)
      modifies Target(key)
      ensures status !in PartnerStatuses ==> r == Err(InvalidStatus)
      ensures status in PartnerStatuses && key !in orders ==> r == Err(OrderNotFound)
      ensures key in orders ==>
        var o := orders[key];
        var s0 := old(o.State());
        var authorized := s0.deliveryPartner.Some? && s0.deliveryPartner == userId;
        && (status in PartnerStatuses && !authorized ==> r == Err(NotAuthorized))
        && (status in PartnerStatuses && authorized && IsTerminal(s0.status) ==> r == Err(AlreadyCompleted))
        && (r.Ok? <==> status in PartnerStatuses && authorized && !IsTerminal(s0.status))
        && (r.Err? ==> o.State() == s0)
        && (r.Ok? ==> o.State() == s0.(
              status := status,
              payment := Payment(
                if TruthyString(paymentMethod) then paymentMethod.value else s0.payment.paymentMethod,
                if TruthyString(paymentStatus) then paymentStatus.value else s0.payment.paymentStatus),
              timestamps := s0.timestamps[status := now]))
    {
      if status !in PartnerStatuses {
        return Err(InvalidStatus);
      }
      if key !in orders {
        return Err(OrderNotFound);
      }
      var o := orders[key];
      if o.deliveryPartner.None? || o.deliveryPartner != userId {
        return Err(NotAuthorized);
      }
      if IsTerminal(o.status) {
        return Err(AlreadyCompleted);
      }
      o.status := status;
      if TruthyString(paymentStatus) {
        o.payment := o.payment.(paymentStatus := paymentStatus.value);
      }
      if TruthyString(paymentMethod) {
        o.payment := o.payment.(paymentMethod := paymentMethod.value);
      }
      o.timestamps := o.timestamps[status := now];
      r := Ok(());
    }
  }
}
