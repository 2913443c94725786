/**
 * The order document: its status vocabulary, line items, payment sub-document,
 * and the pre-save hook that stamps the human-readable order id.
 */
module OrderModel {
  import opened Common
  import SequenceIds

  type Id = nat

  /**
   * Every status string that some handler writes into `order.status` or `item.status`.
   * The schema enums are narrower; see InOrderStatusEnum and InItemStatusEnum.
   */
  datatype Status =
    | Prewave | Pending | Confirmed | Packing | Packed | Ready
    | Assigned | Arriving | Delivered | Cancelled
    | Available | Processing | Dispatched | Upi | Cash

  /** The `status` enum of the order schema: no confirmed, available, processing or dispatched. */
  predicate InOrderStatusEnum(s: Status) {
    s in {Prewave, Pending, Packing, Packed, Ready, Assigned, Arriving, Delivered, Cancelled}
  }

  /** The `items.status` enum: no cancelled and no confirmed. */
  predicate InItemStatusEnum(s: Status) {
    s in {Prewave, Pending, Packing, Packed, Ready}
  }

  predicate IsTerminal(s: Status) {
    s == Cancelled || s == Delivered
  }

  const DefaultOrderStatus: Status := Pending
  const DefaultItemStatus: Status := Pending

  /** The payment sub-document; method and status are stored as the strings the client sent. */
  datatype Payment = Payment(paymentMethod: string, paymentStatus: string)

  const DefaultPayment: Payment := Payment("COD", "pending")

  predicate PaymentInEnum(p: Payment) {
    p.paymentMethod in {"COD", "Online", "Cash"} && p.paymentStatus in {"pending", "paid", "failed"}
  }

  /** The schema defaults lie inside the schema enums. */
  lemma DefaultsInEnums()
    ensures InOrderStatusEnum(DefaultOrderStatus)
    ensures InItemStatusEnum(DefaultItemStatus)
    ensures PaymentInEnum(DefaultPayment)
  {
  }

  datatype LineItem = LineItem(
    id: Id,
    product: Id,
    variantId: Id,
    branch: Id,
    name: string,
    image: string,
    count: int,
    price: int,
    itemTotal: int,
    unit: string,
    status: Status,
    cancellationReason: Option<string>)

  datatype PickupLocation = PickupLocation(branch: Id, latitude: int, longitude: int, address: string)

  datatype DeliveryLocation = DeliveryLocation(
    latitude: int, longitude: int,
    houseNo: string, streetAddress: string, landmark: string,
    city: string, state: string, pinCode: string, country: string)

  /** The slot snapshot copied into the order at checkout. */
  datatype SlotChoice = SlotChoice(id: string, slotLabel: string, startTime: string, endTime: string, date: string)

  /** The part of an order that the handlers change, as one value. */
  datatype OrderState = OrderState(
    orderId: string,
    isNew: bool,
    status: Status,
    items: seq<LineItem>,
    timestamps: map<Status, int>,
    totalPrice: int,
    deliveryPartner: Option<Id>,
    payment: Payment)

  /**
   * An order document. Fields fixed at checkout are constants; `statusTimestamps`
   * is `timestamps`, keyed by the status whose `<status>At` entry was written.
   */
  class Order {
    const customer: Id
    const deliveryLocation: DeliveryLocation
    const pickupLocations: seq<PickupLocation>
    const slot: SlotChoice
    const deliveryCharge: Option<int>
    const handlingCharge: Option<int>
    const savings: Option<int>
    /** `discount.amt`, already parsed to a number. */
    const discountAmt: Option<int>
    const createdAt: int

    var orderId: string
    var isNew: bool
    var status: Status
    var items: seq<LineItem>
    var timestamps: map<Status, int>
    var totalPrice: int
    var deliveryPartner: Option<Id>
    var payment: Payment

    ghost function State(): OrderState
      reads this
    {
      OrderState(orderId, isNew, status, items, timestamps, totalPrice, deliveryPartner, payment)
    }

    /** `new Order({...})`: an unsaved document carrying the schema defaults. */
    constructor (
      customer: Id, deliveryLocation: DeliveryLocation, pickupLocations: seq<PickupLocation>,
      slot: SlotChoice, deliveryCharge: Option<int>, handlingCharge: Option<int>,
      savings: Option<int>, discountAmt: Option<int>, totalPrice: int,
      items: seq<LineItem>, createdAt: int)
      ensures this.customer == customer && this.deliveryLocation == deliveryLocation
      ensures this.pickupLocations == pickupLocations && this.slot == slot
      ensures this.deliveryCharge == deliveryCharge && this.handlingCharge == handlingCharge
      ensures this.savings == savings && this.discountAmt == discountAmt && this.createdAt == createdAt
      ensures State() == OrderState("", true, DefaultOrderStatus, items, map[], totalPrice, None, DefaultPayment)
    {
      this.customer := customer;
      this.deliveryLocation := deliveryLocation;
      this.pickupLocations := pickupLocations;
      this.slot := slot;
      this.deliveryCharge := deliveryCharge;
      this.handlingCharge := handlingCharge;
      this.savings := savings;
      this.discountAmt := discountAmt;
      this.createdAt := createdAt;
      orderId := "";
      isNew := true;
      status := DefaultOrderStatus;
      this.items := items;
      timestamps := map[];
      this.totalPrice := totalPrice;
      deliveryPartner := None;
      payment := DefaultPayment;
    }

    /**
     * `save()` with its pre-save hook: a new document draws the next "orderId" counter
     * value and gets "ORD" + that value padded to five digits; a saved document is left as it is.
     */
    method Save(counters: SequenceIds.Counters)
      modifies this`orderId, this`isNew, counters
      ensures old(isNew) ==> counters.values == old(counters.values)["orderId" := old(counters.Current("orderId")) + 1]
      ensures old(isNew) ==> orderId == SequenceIds.SequenceId("ORD", old(counters.Current("orderId")) + 1)
      ensures !old(isNew) ==> orderId == old(orderId) && counters.values == old(counters.values)
      ensures !isNew
    {
      if isNew {
        var n := counters.Next("orderId");
        orderId := SequenceIds.SequenceId("ORD", n);
      }
      isNew := false;
    }
  }

  /** Two new orders saved one after the other get different ids, and saving again changes neither. */
  method SaveTwo(a: Order, b: Order, counters: SequenceIds.Counters)
    requires a != b && a.isNew && b.isNew
    modifies a, b, counters
    ensures a.orderId != b.orderId
  {
    a.Save(counters);
    ghost var n := counters.Current("orderId");
    assert a.orderId == SequenceIds.SequenceId("ORD", n);
    b.Save(counters);
    assert b.orderId == SequenceIds.SequenceId("ORD", n + 1);
    SequenceIds.SequenceIdInjective("ORD", n, n + 1);
    a.Save(counters);
  }
}
