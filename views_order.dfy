// Checkout and order confirmation in myapp/views.py: OrderCreateView.post with
// its _render_with_error, and the access rule of OrderConfirmView.get.
//
// OrderCreateView.post runs, in this order: the action and empty-cart guards,
// the card-field shape checks (first failure wins), Order.full_clean, then
// order.save() (which fires the manager notifications), one OrderItem per cart
// line, and the clearing of the cart. These writes are not wrapped in a
// transaction.

module OrderViews {
  import opened Text
  import opened Models
  import opened Signals

  // ---------------------------------------------------------------------------
  // Card fields

  predicate CardNumberOk(s: string) {
    IsDigits(s) && |s| == 16
  }

  predicate CardMonthOk(s: string) {
    IsDigits(s) && |s| == 2 && 1 <= Value(s) <= 12
  }

  predicate CardYearOk(s: string) {
    IsDigits(s) && |s| == 2
  }

  predicate CardCvvOk(s: string) {
    IsDigits(s) && |s| == 3
  }

  /** Why a checkout form is shown again. */
  datatype CheckoutError =
    | BadCardNumber
    | BadCardMonth
    | BadCardYear
    | BadCardCvv
    | NotClean(reason: CleanError)

  /** The card checks in their fixed order; only the first failure is reported. */
  function CardError(number: string, month: string, year: string, cvv: string): (r: Option<CheckoutError>)
    ensures r.None? <==> CardNumberOk(number) && CardMonthOk(month) && CardYearOk(year) && CardCvvOk(cvv)
    ensures r == Some(BadCardNumber) <==> !CardNumberOk(number)
    ensures r == Some(BadCardMonth) <==> CardNumberOk(number) && !CardMonthOk(month)
    ensures r == Some(BadCardYear) <==> CardNumberOk(number) && CardMonthOk(month) && !CardYearOk(year)
    ensures r == Some(BadCardCvv) <==>
      CardNumberOk(number) && CardMonthOk(month) && CardYearOk(year) && !CardCvvOk(cvv)
  {
    if !CardNumberOk(number) then Some(BadCardNumber)
    else if !CardMonthOk(month) then Some(BadCardMonth)
    else if !CardYearOk(year) then Some(BadCardYear)
    else if !CardCvvOk(cvv) then Some(BadCardCvv)
    else None
  }

  /** Month "00" and "13" are refused, "01" to "12" accepted: exactly two digits
      naming a month. */
  lemma {:induction false} CardMonthExactly(s: string)
    ensures CardMonthOk(s) <==>
      |s| == 2 && IsDigit(s[0]) && IsDigit(s[1]) && 1 <= 10 * DigitValue(s[0]) + DigitValue(s[1]) <= 12
  {
    if |s| == 2 && IsDigit(s[0]) && IsDigit(s[1]) {
      assert s[..1][..0] == [];
      assert s[..1] == [s[0]];
      assert Value(s[..1]) == DigitValue(s[0]);
      assert Value(s) == 10 * DigitValue(s[0]) + DigitValue(s[1]);
    }
  }

  // ---------------------------------------------------------------------------
  // The posted form

  /** The card inputs; a missing one reads as "". */
  datatype CardParams = CardParams(number: Option<string>, month: Option<string>, year: Option<string>, cvv: Option<string>)

  datatype CheckoutForm = CheckoutForm(
    actionType: Option<string>,
    deliveryMethod: Option<string>,
    deliveryAddress: Option<string>,
    paymentMethod: Option<string>,
    card: CardParams)

  function DeliveryOf(f: CheckoutForm): string { GetOr(f.deliveryMethod, DefaultDelivery) }
  function AddressOf(f: CheckoutForm): string { GetOr(f.deliveryAddress, "") }
  function PaymentOf(f: CheckoutForm): string { GetOr(f.paymentMethod, DefaultPayment) }

  function CardErrorOf(f: CheckoutForm): Option<CheckoutError> {
    CardError(GetOr(f.card.number, ""), GetOr(f.card.month, ""), GetOr(f.card.year, ""), GetOr(f.card.cvv, ""))
  }

  /** The cart of a user, None when the user has no Booking. */
  function CartIfAny(carts: map<UserId, seq<CartLine>>, u: UserId): Option<seq<CartLine>> {
    if u in carts then Some(carts[u]) else None
  }

  /** What the view decides before it writes anything. */
  datatype Decision =
    | BackToForm                 // redirect('order_create')
    | Reject(error: CheckoutError)
    | Create(order: Order)

  /** The order the form would create from these lines. */
  function CandidateOrder(lines: seq<CartLine>, f: CheckoutForm, catalog: Catalog, user: UserId, id: OrderId, now: Instant): Order {
    Order(id, user, now, Total(lines, catalog), DeliveryOf(f), AddressOf(f), PaymentOf(f))
  }

  function Decide(cart: Option<seq<CartLine>>, f: CheckoutForm, catalog: Catalog, user: UserId, id: OrderId, now: Instant): (d: Decision)
    ensures d.BackToForm? <==> f.actionType != Some("submit_order") || cart.None? || cart.value == []
  {
    if f.actionType != Some("submit_order") then BackToForm
    else if cart.None? || cart.value == [] then BackToForm
    else if PaymentOf(f) == "card" && CardErrorOf(f).Some? then Reject(CardErrorOf(f).value)
    else
      var o := CandidateOrder(cart.value, f, catalog, user, id, now);
      match FullClean(o)
      case Some(e) => Reject(NotClean(e))
      case None => Create(o)
  }

  /** An order is created exactly when the form was submitted, the cart has lines,
      the card fields pass when paying by card, and full_clean passes; it then
      carries the live cart total and valid choices. */
  lemma DecideCreatesExactly(cart: Option<seq<CartLine>>, f: CheckoutForm, catalog: Catalog, user: UserId, id: OrderId, now: Instant)
    ensures Decide(cart, f, catalog, user, id, now).Create? <==>
      && f.actionType == Some("submit_order") && cart.Some? && cart.value != []
      && (PaymentOf(f) == "card" ==> CardErrorOf(f).None?)
      && FullClean(CandidateOrder(cart.value, f, catalog, user, id, now)).None?
    ensures Decide(cart, f, catalog, user, id, now).Create? ==>
      var o := Decide(cart, f, catalog, user, id, now).order;
      && o.totalPrice == Total(cart.value, catalog) && o.user == user && o.id == id
      && o.deliveryMethod in DeliveryChoices && o.paymentMethod in PaymentChoices
      && OrderClean(o.deliveryMethod, o.paymentMethod)
  {
  }

  /** Postomat delivery paid on delivery never creates an order, whatever else is sent. */
  lemma PostomatWithCashNeverCreates(cart: Option<seq<CartLine>>, f: CheckoutForm, catalog: Catalog, user: UserId, id: OrderId, now: Instant)
    requires DeliveryOf(f) == "nova_poshta_postomat" && PaymentOf(f) == "cash_on_delivery"
    ensures !Decide(cart, f, catalog, user, id, now).Create?
  {
  }

  /** Once the guards pass, a failing card check is reported before anything
      full_clean would say. */
  lemma CardErrorWinsOverFullClean(cart: Option<seq<CartLine>>, f: CheckoutForm, catalog: Catalog, user: UserId, id: OrderId, now: Instant)
    requires f.actionType == Some("submit_order") && cart.Some? && cart.value != []
    requires PaymentOf(f) == "card" && CardErrorOf(f).Some?
    ensures Decide(cart, f, catalog, user, id, now) == Reject(CardErrorOf(f).value)
  {
  }

  /** Once the guards and card checks pass, the first full_clean error is reported. */
  lemma FullCleanErrorReported(cart: Option<seq<CartLine>>, f: CheckoutForm, catalog: Catalog, user: UserId, id: OrderId, now: Instant)
    requires f.actionType == Some("submit_order") && cart.Some? && cart.value != []
    requires PaymentOf(f) == "card" ==> CardErrorOf(f).None?
    requires FullClean(CandidateOrder(cart.value, f, catalog, user, id, now)).Some?
    ensures Decide(cart, f, catalog, user, id, now) ==
      Reject(NotClean(FullClean(CandidateOrder(cart.value, f, catalog, user, id, now)).value))
  {
  }

  /** Unless paying by card, the card fields are not looked at. */
  lemma CardFieldsIgnoredUnlessCard(cart: Option<seq<CartLine>>, f: CheckoutForm, card: CardParams, catalog: Catalog, user: UserId, id: OrderId, now: Instant)
    requires PaymentOf(f) != "card"
    ensures Decide(cart, f, catalog, user, id, now) == Decide(cart, f.(card := card), catalog, user, id, now)
  {
  }

  /** Paying by card with a card number that is not sixteen digits is answered
      with the card-number message, unless the form is stale or the cart empty. */
  lemma BadCardNumberWins(cart: Option<seq<CartLine>>, f: CheckoutForm, catalog: Catalog, user: UserId, id: OrderId, now: Instant)
    requires PaymentOf(f) == "card" && !CardNumberOk(GetOr(f.card.number, ""))
    ensures f.actionType == Some("submit_order") && cart.Some? && cart.value != [] ==>
      Decide(cart, f, catalog, user, id, now) == Reject(BadCardNumber)
    ensures !(f.actionType == Some("submit_order") && cart.Some? && cart.value != []) ==>
      Decide(cart, f, catalog, user, id, now) == BackToForm
  {
  }

  // ---------------------------------------------------------------------------
  // The price snapshot

  predicate AllLive(lines: seq<CartLine>, catalog: Catalog) {
    forall i :: 0 <= i < |lines| ==> IsLive(lines[i], catalog)
  }

  /** One OrderItem per line: same product and quantity, the product's current price. */
  function Snapshot(orderId: OrderId, lines: seq<CartLine>, catalog: Catalog): seq<OrderItem>
    requires AllLive(lines, catalog)
  {
    seq(|lines|, i requires 0 <= i < |lines| && IsLive(lines[i], catalog) =>
      OrderItem(orderId, lines[i].product, lines[i].quantity, catalog[lines[i].product.value].price))
  }

  /** Sum of price times quantity over order items. */
  function ItemsTotal(items: seq<OrderItem>): int {
    if items == [] then 0 else items[0].price * items[0].quantity + ItemsTotal(items[1..])
  }

  /** The order's items sum to the cart total it was created with. */
  lemma {:induction false} SnapshotTotalIsCartTotal(orderId: OrderId, lines: seq<CartLine>, catalog: Catalog)
    requires AllLive(lines, catalog)
    ensures ItemsTotal(Snapshot(orderId, lines, catalog)) == Total(lines, catalog)
    decreases |lines|
  {
    if lines != [] {
      assert Snapshot(orderId, lines, catalog)[1..] == Snapshot(orderId, lines[1..], catalog);
      SnapshotTotalIsCartTotal(orderId, lines[1..], catalog);
    }
  }

  /** The first line whose product was deleted, or |lines| if there is none. */
  function FirstDeadLine(lines: seq<CartLine>, catalog: Catalog): (k: nat)
    ensures k <= |lines| && AllLive(lines[..k], catalog)
    ensures k < |lines| ==> !IsLive(lines[k], catalog)
  {
    if lines == [] || !IsLive(lines[0], catalog) then 0
    else
      var k := 1 + FirstDeadLine(lines[1..], catalog);
      assert lines[..k] == [lines[0]] + lines[1..][..k - 1];
      k
  }

  /** The first dead line is the only index with a live prefix and a dead line there. */
  lemma {:induction false} FirstDeadLineIs(lines: seq<CartLine>, catalog: Catalog, i: nat)
    requires i <= |lines| && AllLive(lines[..i], catalog)
    requires i < |lines| ==> !IsLive(lines[i], catalog)
    ensures FirstDeadLine(lines, catalog) == i
  {
    if i > 0 {
      assert lines[..i][0] == lines[0];
      assert lines[1..][..i - 1] == lines[..i][1..];
      FirstDeadLineIs(lines[1..], catalog, i - 1);
    }
  }

  /** The items of one order, in creation order. */
  function ItemsOf(items: seq<OrderItem>, orderId: OrderId): seq<OrderItem> {
    if items == [] then []
    else (if items[0].order == orderId then [items[0]] else []) + ItemsOf(items[1..], orderId)
  }

  lemma {:induction false} ItemsOfAppend(a: seq<OrderItem>, b: seq<OrderItem>, orderId: OrderId)
    ensures ItemsOf(a + b, orderId) == ItemsOf(a, orderId) + ItemsOf(b, orderId)
  {
    if a == [] {
      assert a + b == b;
    } else {
      var head := if a[0].order == orderId then [a[0]] else [];
      assert (a + b)[0] == a[0];
      assert (a + b)[1..] == a[1..] + b;
      assert ItemsOf(a + b, orderId) == head + ItemsOf(a[1..] + b, orderId);
      ItemsOfAppend(a[1..], b, orderId);
      assert ItemsOf(a, orderId) == head + ItemsOf(a[1..], orderId);
    }
  }

  lemma {:induction false} ItemsOfNone(items: seq<OrderItem>, orderId: OrderId)
    requires forall i :: 0 <= i < |items| ==> items[i].order != orderId
    ensures ItemsOf(items, orderId) == []
  {
    if items != [] {
      ItemsOfNone(items[1..], orderId);
    }
  }

  lemma {:induction false} ItemsOfAll(items: seq<OrderItem>, orderId: OrderId)
    requires forall i :: 0 <= i < |items| ==> items[i].order == orderId
    ensures ItemsOf(items, orderId) == items
  {
    if items != [] {
      ItemsOfAll(items[1..], orderId);
      assert items == [items[0]] + items[1..];
    }
  }

  /** The items of a newly created order are exactly those appended for it. */
  lemma ItemsOfFreshOrder(before: seq<OrderItem>, added: seq<OrderItem>, orderId: OrderId)
    requires forall i :: 0 <= i < |before| ==> before[i].order != orderId
    requires forall j :: 0 <= j < |added| ==> added[j].order == orderId
    ensures ItemsOf(before + added, orderId) == added
  {
    ItemsOfAppend(before, added, orderId);
    ItemsOfNone(before, orderId);
    ItemsOfAll(added, orderId);
  }

  // ---------------------------------------------------------------------------
  // The view

  datatype CheckoutOutcome =
    | RedirectToForm
    | FormError(error: CheckoutError)
    | RedirectToConfirmation(orderId: OrderId)
    | ServerError                // item.product.price or .name on a deleted product

  /** _render_with_error lists each line's product name, which fails on a deleted product. */
  function RenderWithError(lines: seq<CartLine>, catalog: Catalog, e: CheckoutError): (o: CheckoutOutcome)
    ensures o == ServerError <==> exists i :: 0 <= i < |lines| && !IsLive(lines[i], catalog)
    ensures o != ServerError ==> o == FormError(e)
  {
    if AllLive(lines, catalog) then FormError(e) else ServerError
  }

  twostate predicate StoreUnchanged(db: Store)
    reads db
  {
    && db.carts == old(db.carts) && db.orders == old(db.orders)
    && db.orderItems == old(db.orderItems) && db.notifications == old(db.notifications)
    && db.nextOrderId == old(db.nextOrderId) && db.nextNotificationId == old(db.nextNotificationId)
  }

  /** The loop of OrderCreateView.post creating one OrderItem per cart line. It
      stops at the first line whose product was deleted (item.product.price
      raises), keeping the items created before it. */
  method CreateOrderItems(db: Store, orderId: OrderId, lines: seq<CartLine>) returns (complete: bool)
    requires db.Valid() && orderId < db.nextOrderId && ReferencesExist(lines, db.catalog)
    modifies db`orderItems
    ensures db.Valid()
    ensures db.orderItems == old(db.orderItems) + Snapshot(orderId, lines[..FirstDeadLine(lines, db.catalog)], db.catalog)
    ensures complete <==> FirstDeadLine(lines, db.catalog) == |lines|
  {
    var i := 0;
    while i < |lines|
      invariant 0 <= i <= |lines|
      invariant AllLive(lines[..i], db.catalog)
      invariant db.orderItems == old(db.orderItems) + Snapshot(orderId, lines[..i], db.catalog)
      invariant db.Valid()
    {
      if lines[i].product.None? {
        FirstDeadLineIs(lines, db.catalog, i);
        return false;
      }
      var line := lines[i];
      var item := OrderItem(orderId, line.product, line.quantity, db.catalog[line.product.value].price);
      db.orderItems := db.orderItems + [item];
      assert lines[..i + 1] == lines[..i] + [line];
      assert Snapshot(orderId, lines[..i + 1], db.catalog) == Snapshot(orderId, lines[..i], db.catalog) + [item];
      i := i + 1;
    }
    assert lines[..i] == lines;
    FirstDeadLineIs(lines, db.catalog, i);
    return true;
  }

  /** order.save() with its post_save notifications, then the OrderItem loop. */
  method SaveOrderWithItems(db: Store, order: Order, lines: seq<CartLine>, now: Instant) returns (complete: bool)
    requires db.Valid() && RenderableTime(order.date.local) && order.id == db.nextOrderId
    requires ReferencesExist(lines, db.catalog)
    modifies db`orders, db`orderItems, db`notifications, db`nextOrderId, db`nextNotificationId
    ensures db.Valid()
    ensures var k := FirstDeadLine(lines, db.catalog);
      && db.orders == old(db.orders) + [order]
      && db.nextOrderId == old(db.nextOrderId) + 1
      && db.notifications == old(db.notifications) + NewNotifications(db.managers, order, old(db.nextNotificationId), now)
      && db.nextNotificationId == old(db.nextNotificationId) + |db.managers|
      && db.orderItems == old(db.orderItems) + Snapshot(order.id, lines[..k], db.catalog)
      && ItemsOf(db.orderItems, order.id) == Snapshot(order.id, lines[..k], db.catalog)
      && (complete <==> k == |lines|)
  {
    db.orders := db.orders + [order];
    db.nextOrderId := db.nextOrderId + 1;
    NotifyManagerOnOrder(db, order, true, now);

    ghost var itemsBefore := db.orderItems;
    complete := CreateOrderItems(db, order.id, lines);
    ItemsOfFreshOrder(itemsBefore, Snapshot(order.id, lines[..FirstDeadLine(lines, db.catalog)], db.catalog), order.id);
  }

  /** OrderCreateView.post */
  method OrderCreatePost(db: Store, user: UserId, f: CheckoutForm, now: Instant) returns (outcome: CheckoutOutcome)
    requires db.Valid() && RenderableTime(now.local)
    modifies db`carts, db`orders, db`orderItems, db`notifications, db`nextOrderId, db`nextNotificationId
    ensures db.Valid()
    ensures var d := Decide(CartIfAny(old(db.carts), user), f, db.catalog, user, old(db.nextOrderId), now);
      && (d.BackToForm? ==> outcome == RedirectToForm && StoreUnchanged(db))
      && (d.Reject? ==> outcome == RenderWithError(old(db.carts)[user], db.catalog, d.error) && StoreUnchanged(db))
      && (d.Create? ==>
            var lines := old(db.carts)[user];
            var k := FirstDeadLine(lines, db.catalog);
            && db.orders == old(db.orders) + [d.order]
            && db.nextOrderId == old(db.nextOrderId) + 1
            && db.notifications == old(db.notifications) + NewNotifications(db.managers, d.order, old(db.nextNotificationId), now)
            && db.nextNotificationId == old(db.nextNotificationId) + |db.managers|
            && db.orderItems == old(db.orderItems) + Snapshot(d.order.id, lines[..k], db.catalog)
            && ItemsOf(db.orderItems, d.order.id) == Snapshot(d.order.id, lines[..k], db.catalog)
            && (k == |lines| ==>
                  && outcome == RedirectToConfirmation(d.order.id)
                  && db.carts == old(db.carts)[user := []]
                  && ItemsTotal(ItemsOf(db.orderItems, d.order.id)) == d.order.totalPrice)
            && (k < |lines| ==> outcome == ServerError && db.carts == old(db.carts)))
  {
    // the guards, the card checks and full_clean write nothing
    var d := Decide(CartIfAny(db.carts, user), f, db.catalog, user, db.nextOrderId, now);
    if d.BackToForm? {
      return RedirectToForm;
    }
    var lines := db.carts[user];
    if d.Reject? {
      return RenderWithError(lines, db.catalog, d.error);
    }
    var complete := SaveOrderWithItems(db, d.order, lines, now);
    if !complete {
      return ServerError;
    }
    db.carts := db.carts[user := []];
    assert lines[..|lines|] == lines;
    SnapshotTotalIsCartTotal(d.order.id, lines, db.catalog);
    return RedirectToConfirmation(d.order.id);
  }

  /** As written, a checkout whose cart holds a line of a deleted product before a
      live one stores an order of 100 cents with no items at all, and (by the
      contract of OrderCreatePost) notifies the managers, answers ServerError and
      keeps the cart. */
  lemma FailedCheckoutLeavesOrderBehind()
    ensures
      var catalog := map[7 := Product(100)];
      var lines := [CartLine(None, 1), CartLine(Some(7), 1)];
      var f := CheckoutForm(Some("submit_order"), None, Some("Kyiv, branch 1"), None, CardParams(None, None, None, None));
      var now := Instant(0, LocalTime(2025, 1, 1, 12, 0));
      var d := Decide(Some(lines), f, catalog, 1, 1, now);
      && d.Create? && d.order.totalPrice == 100
      && FirstDeadLine(lines, catalog) == 0 && FirstDeadLine(lines, catalog) < |lines|
      && Snapshot(1, lines[..FirstDeadLine(lines, catalog)], catalog) == []
  {
    var catalog := map[7 := Product(100)];
    var lines := [CartLine(None, 1), CartLine(Some(7), 1)];
    assert Total(lines, catalog) == 100 by {
      assert lines[1..][1..] == [];
    }
  }

  /** OrderCreateView.post with the order build applied all-or-nothing: a cart line
      whose product was deleted now fails the request before anything is written. */
  method OrderCreatePostAtomic(db: Store, user: UserId, f: CheckoutForm, now: Instant) returns (outcome: CheckoutOutcome)
    requires db.Valid() && RenderableTime(now.local)
    modifies db`carts, db`orders, db`orderItems, db`notifications, db`nextOrderId, db`nextNotificationId
    ensures db.Valid()
    ensures outcome != RedirectToConfirmation(old(db.nextOrderId)) ==> StoreUnchanged(db)
    ensures var d := Decide(CartIfAny(old(db.carts), user), f, db.catalog, user, old(db.nextOrderId), now);
      && (d.BackToForm? ==> outcome == RedirectToForm)
      && (d.Reject? ==> outcome == RenderWithError(old(db.carts)[user], db.catalog, d.error))
      && (d.Create? ==>
            var lines := old(db.carts)[user];
            && (!AllLive(lines, db.catalog) ==> outcome == ServerError)
            && (AllLive(lines, db.catalog) ==>
                  && outcome == RedirectToConfirmation(d.order.id)
                  && db.orders == old(db.orders) + [d.order]
                  && db.nextOrderId == old(db.nextOrderId) + 1
                  && db.notifications == old(db.notifications) + NewNotifications(db.managers, d.order, old(db.nextNotificationId), now)
                  && db.nextNotificationId == old(db.nextNotificationId) + |db.managers|
                  && db.orderItems == old(db.orderItems) + Snapshot(d.order.id, lines, db.catalog)
                  && ItemsOf(db.orderItems, d.order.id) == Snapshot(d.order.id, lines, db.catalog)
                  && ItemsTotal(ItemsOf(db.orderItems, d.order.id)) == d.order.totalPrice
                  && db.carts == old(db.carts)[user := []]))
  {
    var d := Decide(CartIfAny(db.carts, user), f, db.catalog, user, db.nextOrderId, now);
    if d.BackToForm? {
      return RedirectToForm;
    }
    var lines := db.carts[user];
    if d.Reject? {
      return RenderWithError(lines, db.catalog, d.error);
    }
    if !AllLive(lines, db.catalog) {
      return ServerError;
    }
    assert lines[..|lines|] == lines;
    FirstDeadLineIs(lines, db.catalog, |lines|);
    var complete := SaveOrderWithItems(db, d.order, lines, now);
    db.carts := db.carts[user := []];
    SnapshotTotalIsCartTotal(d.order.id, lines, db.catalog);
    return RedirectToConfirmation(d.order.id);
  }

  // ---------------------------------------------------------------------------
  // OrderConfirmView.get

  /** The owner may view an order, and so may any manager. */
  predicate MayViewOrder(owner: UserId, viewer: UserId, viewerIsManager: bool) {
    owner == viewer || viewerIsManager
  }

  datatype ConfirmLine = ConfirmLine(product: Option<ProductId>, quantity: nat, price: Cents, total: Cents)

  datatype ConfirmPage = ConfirmPage(
    order: Order,
    lines: seq<ConfirmLine>,
    showSuccessMessage: bool,
    cameFromNotification: bool)

  datatype ConfirmResult = OrderNotFound | PermissionDenied | Page(page: ConfirmPage)

  /** get_object_or_404(Order, id=orderId) */
  function FindOrder(orders: seq<Order>, orderId: OrderId): (r: Option<nat>)
    ensures r.Some? ==> r.value < |orders| && orders[r.value].id == orderId
    ensures r.None? ==> forall i :: 0 <= i < |orders| ==> orders[i].id != orderId
  {
    if orders == [] then None
    else if orders[0].id == orderId then Some(0)
    else match FindOrder(orders[1..], orderId)
      case Some(k) => Some(k + 1)
      case None => None
  }

  function ConfirmLines(items: seq<OrderItem>): seq<ConfirmLine> {
    seq(|items|, i requires 0 <= i < |items| =>
      ConfirmLine(items[i].product, items[i].quantity, items[i].price, items[i].price * items[i].quantity))
  }

  function OrderConfirm(
    orders: seq<Order>, items: seq<OrderItem>, managers: seq<UserId>,
    orderId: OrderId, viewer: UserId, success: Option<string>, fromNotification: Option<string>): ConfirmResult
  {
    match FindOrder(orders, orderId)
    case None => OrderNotFound
    case Some(i) =>
      if !MayViewOrder(orders[i].user, viewer, viewer in managers) then PermissionDenied
      else Page(ConfirmPage(orders[i], ConfirmLines(ItemsOf(items, orderId)),
                            success == Some("1"), fromNotification == Some("1")))
  }

  /** The page is shown exactly to the order's owner and to managers; anyone else
      gets PermissionDenied, and an unknown id is NotFound before any access check. */
  lemma OrderConfirmAccess(
    orders: seq<Order>, items: seq<OrderItem>, managers: seq<UserId>,
    orderId: OrderId, viewer: UserId, success: Option<string>, fromNotification: Option<string>)
    requires forall i, j :: 0 <= i < j < |orders| ==> orders[i].id != orders[j].id
    ensures var r := OrderConfirm(orders, items, managers, orderId, viewer, success, fromNotification);
      && (r == OrderNotFound <==> forall i :: 0 <= i < |orders| ==> orders[i].id != orderId)
      && (r.Page? <==> exists i :: 0 <= i < |orders| && orders[i].id == orderId &&
                                    (orders[i].user == viewer || viewer in managers))
      && (r.Page? ==> r.page.order.id == orderId && |r.page.lines| == |ItemsOf(items, orderId)|)
  {
    var r := OrderConfirm(orders, items, managers, orderId, viewer, success, fromNotification);
    match FindOrder(orders, orderId)
    case None =>
    case Some(k) =>
      assert forall i :: 0 <= i < |orders| && orders[i].id == orderId ==> i == k;
  }
}
