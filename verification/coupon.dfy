/**
 * Coupon validation: an ordered chain of guards over the request, the offer found by
 * code, and two customer lookups. The first failing guard decides the answer.
 */
module Coupon {
  import opened Common

  type Id = nat

  datatype UserType = AllUsers | NewUsers | ExistingUsers

  datatype Scope = OrderScope | ProductScope | DeliveryScope

  datatype Rewards = Rewards(
    freeProduct: Option<Id>, freeQuantity: int, freeDelivery: Option<bool>,
    discountValue: Option<int>, discountType: Option<string>)

  datatype Offer = Offer(
    title: string, code: string, isActive: bool, validTill: Option<int>,
    minCartValue: Option<int>, requiredProducts: seq<Id>, userType: Option<UserType>,
    rewards: Rewards, scope: Scope)

  /** The request body; `cartItems` holds the product id of each cart line. */
  datatype CouponRequest = CouponRequest(
    code: Option<string>, cartItems: Option<seq<Id>>, userId: Option<Id>, cartTotal: Option<int>)

  /** The only part of the offer a valid coupon reveals. */
  datatype CouponView = CouponView(title: string, rewards: Rewards, scope: Scope)

  datatype CouponError =
    | CodeRequired | InvalidCode | Expired | BelowMinCartValue
    | UserNotFound | OnlyNewUsers | OnlyExistingUsers | MissingRequiredProduct
    | ServerError

  function CouponHttpStatus(e: CouponError): (code: int)
    ensures code == 404 <==> e == InvalidCode || e == UserNotFound
    ensures code == 500 <==> e == ServerError
    ensures code in {400, 404, 500}
  {
    match e
    case InvalidCode | UserNotFound => 404
    case ServerError => 500
    case _ => 400
  }

  /** `Offer.findOne({code, isActive: true})`: the first active offer with this code. */
  function FindActiveOffer(offers: seq<Offer>, code: string): (r: Option<Offer>)
    ensures r.Some? ==> r.value in offers && r.value.code == code && r.value.isActive
    ensures r.None? ==> forall o :: o in offers ==> !(o.code == code && o.isActive)
  {
    if offers == [] then None
    else if offers[0].code == code && offers[0].isActive then Some(offers[0])
    else FindActiveOffer(offers[1..], code)
  }

  // ---------------------------------------------------------------------------
  // The individual rules, each stated on its own
  // ---------------------------------------------------------------------------

  /** Expired only when validTill is strictly before now. */
  predicate IsExpired(o: Offer, now: int) {
    o.validTill.Some? && o.validTill.value < now
  }

  /** A zero or absent minimum means no check; an absent cart total never compares below. */
  predicate BelowMinimum(o: Offer, cartTotal: Option<int>) {
    TruthyNumber(o.minCartValue) && cartTotal.Some? && cartTotal.value < o.minCartValue.value
  }

  predicate UserRuleApplies(o: Offer, userId: Option<Id>) {
    o.userType.Some? && userId.Some?
  }

  /** "new" wants a customer without orders, "existing" one with orders, "all" anyone. */
  predicate UserTypeSatisfied(t: UserType, hasOrders: bool) {
    match t
    case NewUsers => !hasOrders
    case ExistingUsers => hasOrders
    case AllUsers => true
  }

  /** `requiredProducts.some(id => cartIds.includes(id))`, asked only for a non-empty list. */
  predicate HasRequiredProduct(required: seq<Id>, cart: seq<Id>) {
    exists k :: 0 <= k < |required| && required[k] in cart
  }

  // ---------------------------------------------------------------------------
  // The guard chain
  // ---------------------------------------------------------------------------

  /**
   * The guard chain. `withOrders` is the customers for whom `Order.exists` finds an order;
   * `None` means that lookup cannot be made and throws, which the handler turns into a 500.
   */
  function CheckCoupon(
    req: CouponRequest, offers: seq<Offer>, customers: set<Id>, withOrders: Option<set<Id>>, now: int)
    : (r: Result<CouponView, CouponError>)
    ensures !TruthyString(req.code) ==> r == Err(CodeRequired)
    ensures TruthyString(req.code) && FindActiveOffer(offers, req.code.value).None? ==> r == Err(InvalidCode)
    ensures r.Ok? ==>
      var o := FindActiveOffer(offers, req.code.value).value;
      r.value == CouponView(o.title, o.rewards, o.scope)
  {
    if !TruthyString(req.code) then Err(CodeRequired)
    else
      match FindActiveOffer(offers, req.code.value)
      case None => Err(InvalidCode)
      case Some(o) =>
        if IsExpired(o, now) then Err(Expired)
        else if BelowMinimum(o, req.cartTotal) then Err(BelowMinCartValue)
        else if UserRuleApplies(o, req.userId) && req.userId.value !in customers then Err(UserNotFound)
        else if UserRuleApplies(o, req.userId) && o.userType.value != AllUsers && withOrders.None? then Err(ServerError)
        else if UserRuleApplies(o, req.userId) && withOrders.Some?
                && !UserTypeSatisfied(o.userType.value, req.userId.value in withOrders.value) then
          if o.userType.value == NewUsers then Err(OnlyNewUsers) else Err(OnlyExistingUsers)
        else if o.requiredProducts != [] && req.cartItems.None? then Err(ServerError)
        else if o.requiredProducts != [] && !HasRequiredProduct(o.requiredProducts, req.cartItems.value) then
          Err(MissingRequiredProduct)
        else Ok(CouponView(o.title, o.rewards, o.scope))
  }

  /** validateCoupon as the handler stands: the module that `Order.exists` needs is never imported. */
  function ValidateCouponAsWritten(req: CouponRequest, offers: seq<Offer>, customers: set<Id>, now: int)
    : (r: Result<CouponView, CouponError>)
    ensures forall withOrders :: r != CheckCoupon(req, offers, customers, Some(withOrders), now) ==> r == Err(ServerError)
  {
    CheckCoupon(req, offers, customers, None, now)
  }

  /** The user-type rule, when it applies: a known customer of the wanted kind. */
  predicate UserRulePasses(o: Offer, userId: Option<Id>, customers: set<Id>, withOrders: set<Id>) {
    UserRuleApplies(o, userId) ==>
      userId.value in customers && UserTypeSatisfied(o.userType.value, userId.value in withOrders)
  }

  /** Every rule of the coupon, stated independently of the order the guards run in. */
  predicate CouponRulesHold(
    req: CouponRequest, offers: seq<Offer>, customers: set<Id>, withOrders: set<Id>, now: int): (b: bool)
    ensures b ==> req.code.Some? && FindActiveOffer(offers, req.code.value).Some?
    ensures b ==>
      var o := FindActiveOffer(offers, req.code.value).value;
      && o.isActive && o.code == req.code.value && o in offers
      && (o.validTill.None? || now <= o.validTill.value)
      && (o.userType == Some(NewUsers) && req.userId.Some? ==> req.userId.value in customers - withOrders)
      && (o.userType == Some(ExistingUsers) && req.userId.Some? ==> req.userId.value in customers * withOrders)
  {
    && TruthyString(req.code)
    && FindActiveOffer(offers, req.code.value).Some?
    && var o := FindActiveOffer(offers, req.code.value).value;
    && !IsExpired(o, now)
    && !BelowMinimum(o, req.cartTotal)
    && UserRulePasses(o, req.userId, customers, withOrders)
    && (o.requiredProducts != [] ==> req.cartItems.Some? && HasRequiredProduct(o.requiredProducts, req.cartItems.value))
  }

  /** validateCoupon with the order lookup in place. */
  function ValidateCoupon(
    req: CouponRequest, offers: seq<Offer>, customers: set<Id>, withOrders: set<Id>, now: int)
    : (r: Result<CouponView, CouponError>)
    ensures r.Ok? <==> CouponRulesHold(req, offers, customers, withOrders, now)
    ensures r == Err(ServerError) ==> req.cartItems.None?
  {
    CheckCoupon(req, offers, customers, Some(withOrders), now)
  }

  /** Rules run in a fixed order: an expired coupon is reported as expired whatever else fails. */
  lemma ExpiryDecidesFirst(req: CouponRequest, offers: seq<Offer>, customers: set<Id>, withOrders: set<Id>, now: int)
    requires TruthyString(req.code) && FindActiveOffer(offers, req.code.value).Some?
    requires IsExpired(FindActiveOffer(offers, req.code.value).value, now)
    ensures ValidateCoupon(req, offers, customers, withOrders, now) == Err(Expired)
    ensures ValidateCouponAsWritten(req, offers, customers, now) == Err(Expired)
  {
  }

  /** After the expiry check, each later guard reports its own error when every earlier one passed. */
  lemma LaterGuardsInOrder(req: CouponRequest, offers: seq<Offer>, customers: set<Id>, withOrders: set<Id>, now: int)
    requires TruthyString(req.code) && FindActiveOffer(offers, req.code.value).Some?
    requires !IsExpired(FindActiveOffer(offers, req.code.value).value, now)
    ensures var o := FindActiveOffer(offers, req.code.value).value;
      var r := ValidateCoupon(req, offers, customers, withOrders, now);
      var known := UserRuleApplies(o, req.userId) && req.userId.value in customers;
      && (BelowMinimum(o, req.cartTotal) ==> r == Err(BelowMinCartValue))
      && ((!BelowMinimum(o, req.cartTotal) && UserRuleApplies(o, req.userId) && !known) ==> r == Err(UserNotFound))
      && ((!BelowMinimum(o, req.cartTotal) && known && o.userType.value == NewUsers && req.userId.value in withOrders)
            ==> r == Err(OnlyNewUsers))
      && ((!BelowMinimum(o, req.cartTotal) && known && o.userType.value == ExistingUsers && req.userId.value !in withOrders)
            ==> r == Err(OnlyExistingUsers))
      && ((!BelowMinimum(o, req.cartTotal) && UserRulePasses(o, req.userId, customers, withOrders)
           && o.requiredProducts != [] && req.cartItems.Some?
           && !HasRequiredProduct(o.requiredProducts, req.cartItems.value))
            ==> r == Err(MissingRequiredProduct))
  {
  }

  /**
   * The coupon answers depend on nothing but the request and the lookups, and a missing code
   * is refused before any lookup: the same refusal whatever the offers and customers are.
   */
  lemma MissingCodeBeforeLookups(
    req: CouponRequest, offers1: seq<Offer>, offers2: seq<Offer>, customers1: set<Id>, customers2: set<Id>,
    withOrders1: set<Id>, withOrders2: set<Id>, now1: int, now2: int)
    requires !TruthyString(req.code)
    ensures ValidateCoupon(req, offers1, customers1, withOrders1, now1)
         == ValidateCoupon(req, offers2, customers2, withOrders2, now2)
         == Err(CodeRequired)
  {
  }

  /**
   * As written, a "new" or "existing" coupon presented with the id of a known customer always
   * ends in the 500 branch, even when the corrected handler accepts it.
   */
  lemma AsWrittenUserTypeFails(req: CouponRequest, offers: seq<Offer>, customers: set<Id>, now: int)
    requires TruthyString(req.code) && FindActiveOffer(offers, req.code.value).Some?
    requires var o := FindActiveOffer(offers, req.code.value).value;
      && !IsExpired(o, now) && !BelowMinimum(o, req.cartTotal)
      && o.userType.Some? && o.userType.value != AllUsers
      && req.userId.Some? && req.userId.value in customers
    ensures ValidateCouponAsWritten(req, offers, customers, now) == Err(ServerError)
  {
  }

  /** A concrete request that shows it: a first-time customer using a "new users" coupon. */
  lemma NewUserCouponExample()
    ensures
      var offer := Offer("Welcome", "NEW50", true, None, None, [], Some(NewUsers),
                         Rewards(None, 1, None, Some(50), Some("flat")), OrderScope);
      var req := CouponRequest(Some("NEW50"), Some([7]), Some(3), Some(400));
      && ValidateCouponAsWritten(req, [offer], {3}, 0) == Err(ServerError)
      && ValidateCoupon(req, [offer], {3}, {}, 0) == Ok(CouponView("Welcome", offer.rewards, OrderScope))
  {
    var offer := Offer("Welcome", "NEW50", true, None, None, [], Some(NewUsers),
                       Rewards(None, 1, None, Some(50), Some("flat")), OrderScope);
    assert FindActiveOffer([offer], "NEW50") == Some(offer);
  }
}
