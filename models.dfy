// The records of the store (myapp/models.py) and the database that holds them.
//
// Money is a DecimalField with two decimal places, so every amount is a whole
// number of hundredths (cents). A nullable foreign key with on_delete=SET_NULL
// is an Option of the referenced id: None once the product was deleted.

module Models {
  import opened Text

  type UserId = nat
  type ProductId = nat
  type OrderId = nat
  type NotificationId = nat
  type Cents = nat

  datatype Option<T> = None | Some(value: T)

  function GetOr<T>(o: Option<T>, default: T): T {
    match o
    case Some(v) => v
    case None => default
  }

  /** The part of a catalog product this core reads. */
  datatype Product = Product(price: Cents)

  type Catalog = map<ProductId, Product>

  /** BookingItem: a cart line; the product reference becomes None when the product is deleted. */
  datatype CartLine = CartLine(product: Option<ProductId>, quantity: nat)

  /** BookingItem.quantity's default. */
  const DefaultQuantity: nat := 1

  /** Local calendar time, as localtime() yields it (the time-zone conversion is not modelled). */
  datatype LocalTime = LocalTime(year: nat, month: nat, day: nat, hour: nat, minute: nat)

  predicate LocalTimeValid(t: LocalTime) {
    1 <= t.year && 1 <= t.month <= 12 && 1 <= t.day <= 31 && t.hour < 24 && t.minute < 60
  }

  /** A moment: an absolute stamp that orders moments, and its local rendering. */
  datatype Instant = Instant(stamp: int, local: LocalTime)

  datatype Order = Order(
    id: OrderId,
    user: UserId,
    date: Instant,
    totalPrice: Cents,
    deliveryMethod: string,
    deliveryAddress: string,
    paymentMethod: string)

  /** OrderItem: quantity and price are copied values, not references to the product. */
  datatype OrderItem = OrderItem(order: OrderId, product: Option<ProductId>, quantity: nat, price: Cents)

  datatype Notification = Notification(
    id: NotificationId,
    user: UserId,
    order: OrderId,
    message: string,
    createdAt: Instant,
    isRead: bool)

  // ---------------------------------------------------------------------------
  // Booking.get_total_price

  /** A line's share of the total: nothing when its product is gone. */
  function LineTotal(line: CartLine, catalog: Catalog): Cents {
    match line.product
    case Some(p) => if p in catalog then catalog[p].price * line.quantity else 0
    case None => 0
  }

  predicate IsLive(line: CartLine, catalog: Catalog) {
    line.product.Some? && line.product.value in catalog
  }

  /** sum(item.product.price * item.quantity for item in items if item.product) */
  function Total(lines: seq<CartLine>, catalog: Catalog): Cents {
    if lines == [] then 0 else LineTotal(lines[0], catalog) + Total(lines[1..], catalog)
  }

  /** The lines whose product still exists, in order. */
  function LiveLines(lines: seq<CartLine>, catalog: Catalog): (live: seq<CartLine>)
    ensures forall i :: 0 <= i < |live| ==> IsLive(live[i], catalog)
    ensures forall x :: x in live <==> x in lines && IsLive(x, catalog)
    ensures multiset(live) <= multiset(lines)
  {
    if lines == [] then []
    else
      assert lines == [lines[0]] + lines[1..];
      if IsLive(lines[0], catalog) then [lines[0]] + LiveLines(lines[1..], catalog)
      else LiveLines(lines[1..], catalog)
  }

  /** Sum of price times quantity over live lines only (the reference definition). */
  function LiveSum(live: seq<CartLine>, catalog: Catalog): int
    requires forall i :: 0 <= i < |live| ==> IsLive(live[i], catalog)
  {
    if live == [] then 0
    else
      assert IsLive(live[0], catalog);
      catalog[live[0].product.value].price * live[0].quantity + LiveSum(live[1..], catalog)
  }

  /** The total skips deleted products: it is the plain sum over the live lines. */
  lemma {:induction false} TotalIsSumOverLiveLines(lines: seq<CartLine>, catalog: Catalog)
    ensures Total(lines, catalog) == LiveSum(LiveLines(lines, catalog), catalog)
  {
    if lines != [] {
      TotalIsSumOverLiveLines(lines[1..], catalog);
      if IsLive(lines[0], catalog) {
        assert ([lines[0]] + LiveLines(lines[1..], catalog))[1..] == LiveLines(lines[1..], catalog);
      }
    }
  }

  /** A cart whose every product was deleted totals zero, as does an empty cart. */
  lemma {:induction false} TotalOfDeadLines(lines: seq<CartLine>, catalog: Catalog)
    requires forall i :: 0 <= i < |lines| ==> !IsLive(lines[i], catalog)
    ensures Total(lines, catalog) == 0
  {
    if lines != [] {
      TotalOfDeadLines(lines[1..], catalog);
    }
  }

  lemma {:induction false} TotalAppend(a: seq<CartLine>, b: seq<CartLine>, catalog: Catalog)
    ensures Total(a + b, catalog) == Total(a, catalog) + Total(b, catalog)
  {
    if a == [] {
      assert a + b == b;
    } else {
      assert (a + b)[1..] == a[1..] + b;
      TotalAppend(a[1..], b, catalog);
    }
  }

  /** Replacing one line changes the total by the difference of the two lines' shares. */
  lemma TotalUpdate(lines: seq<CartLine>, i: nat, line: CartLine, catalog: Catalog)
    requires i < |lines|
    ensures Total(lines[i := line], catalog) + LineTotal(lines[i], catalog)
         == Total(lines, catalog) + LineTotal(line, catalog)
  {
    assert lines == lines[..i] + [lines[i]] + lines[i + 1..];
    assert lines[i := line] == lines[..i] + [line] + lines[i + 1..];
    TotalAppend(lines[..i] + [lines[i]], lines[i + 1..], catalog);
    TotalAppend(lines[..i], [lines[i]], catalog);
    TotalAppend(lines[..i] + [line], lines[i + 1..], catalog);
    TotalAppend(lines[..i], [line], catalog);
  }

  /** Deleting one line lowers the total by exactly that line's share. */
  lemma TotalRemove(lines: seq<CartLine>, i: nat, catalog: Catalog)
    requires i < |lines|
    ensures Total(lines[..i] + lines[i + 1..], catalog) + LineTotal(lines[i], catalog)
         == Total(lines, catalog)
  {
    assert lines == lines[..i] + [lines[i]] + lines[i + 1..];
    TotalAppend(lines[..i] + [lines[i]], lines[i + 1..], catalog);
    TotalAppend(lines[..i], [lines[i]], catalog);
    TotalAppend(lines[..i], lines[i + 1..], catalog);
  }

  // ---------------------------------------------------------------------------
  // Order choices, defaults and validation

  const DeliveryChoices: seq<string> := [
    "nova_poshta_branch", "nova_poshta_postomat", "meest_branch",
    "ukrposhta_branch", "meest_courier", "nova_poshta_courier"]

  const PaymentChoices: seq<string> := ["card", "cash_on_delivery"]

  const DefaultDelivery: string := "nova_poshta_branch"
  const DefaultPayment: string := "cash_on_delivery"

  /** Delivery methods that cannot be paid on delivery. */
  const RestrictedDelivery: seq<string> := ["nova_poshta_postomat"]

  /** Order.clean: true when it raises no ValidationError. */
  function OrderClean(deliveryMethod: string, paymentMethod: string): (ok: bool)
    ensures !ok <==> deliveryMethod == "nova_poshta_postomat" && paymentMethod == "cash_on_delivery"
  {
    !(deliveryMethod in RestrictedDelivery && paymentMethod == "cash_on_delivery")
  }

  /** What full_clean reports first, in the model's field order, then clean(). */
  datatype CleanError =
    | TotalPriceInvalid            // DecimalField(max_digits=10, decimal_places=2)
    | DeliveryMethodInvalid        // blank or not one of DELIVERY_CHOICES
    | DeliveryAddressInvalid       // blank or longer than 255
    | PaymentMethodInvalid         // blank or not one of PAYMENT_CHOICES
    | DeliveryPaymentIncompatible  // Order.clean

  /** Ten digits with two after the point: fewer than 10^8 whole units. */
  const MaxTotalCents: nat := 10_000_000_000

  const MaxAddressLength: nat := 255

  predicate AddressValid(address: string) {
    address != "" && |address| <= MaxAddressLength
  }

  /** Order.full_clean: the first message of the ValidationError it raises, if any. */
  function FullClean(o: Order): (r: Option<CleanError>)
    ensures r.None? <==>
      o.totalPrice < MaxTotalCents && o.deliveryMethod in DeliveryChoices &&
      AddressValid(o.deliveryAddress) && o.paymentMethod in PaymentChoices &&
      !(o.deliveryMethod == "nova_poshta_postomat" && o.paymentMethod == "cash_on_delivery")
    ensures r == Some(DeliveryPaymentIncompatible) ==>
      o.deliveryMethod == "nova_poshta_postomat" && o.paymentMethod == "cash_on_delivery"
  {
    if o.totalPrice >= MaxTotalCents then Some(TotalPriceInvalid)
    else if o.deliveryMethod !in DeliveryChoices then Some(DeliveryMethodInvalid)
    else if !AddressValid(o.deliveryAddress) then Some(DeliveryAddressInvalid)
    else if o.paymentMethod !in PaymentChoices then Some(PaymentMethodInvalid)
    else if !OrderClean(o.deliveryMethod, o.paymentMethod) then Some(DeliveryPaymentIncompatible)
    else None
  }

  // ---------------------------------------------------------------------------
  // UserProfile.phone and phone_validator

  predicate PlusThreeEightZeroThenNineDigits(s: string) {
    |s| >= 13 && s[..4] == "+380" && forall i :: 4 <= i < 13 ==> IsDigit(s[i])
  }

  /** re.search(r'^\+380\d{9}$', s): Python's `$` also matches before a final newline. */
  predicate PhoneRegexMatches(s: string) {
    PlusThreeEightZeroThenNineDigits(s) && (|s| == 13 || (|s| == 14 && s[13] == '\n'))
  }

  /** The phone field: a blank value skips validation; otherwise max_length=13 and the regex. */
  predicate PhoneFieldValid(s: string) {
    s == "" || (|s| <= 13 && PhoneRegexMatches(s))
  }

  /** The field accepts exactly "" and "+380" followed by nine digits. */
  lemma PhoneFieldExactly(s: string)
    ensures PhoneFieldValid(s) <==> s == "" || (|s| == 13 && s[..4] == "+380" && IsDigits(s[4..]))
  {
    if |s| == 13 && s[..4] == "+380" && IsDigits(s[4..]) {
      forall i | 4 <= i < 13 ensures IsDigit(s[i]) {
        assert s[i] == s[4..][i - 4];
      }
    }
  }

  /** The regex alone lets a trailing newline through; the length limit is what stops it. */
  lemma PhoneRegexAcceptsTrailingNewline()
    ensures PhoneRegexMatches("+380501234567\n")
    ensures !PhoneFieldValid("+380501234567\n")
  {
  }

  // ---------------------------------------------------------------------------
  // Comment: rating validators and unique_together('product', 'user')

  datatype Comment = Comment(product: ProductId, user: Option<UserId>, rating: int)

  datatype CommentError = RatingOutOfRange | DuplicateReview

  predicate RatingValid(rating: int) {
    1 <= rating <= 5
  }

  predicate SameReviewer(a: Comment, b: Comment) {
    a.product == b.product && a.user.Some? && a.user == b.user
  }

  /** The stored comments: ratings in range and one review per product and known user. */
  predicate CommentsConsistent(cs: seq<Comment>) {
    && (forall i :: 0 <= i < |cs| ==> RatingValid(cs[i].rating))
    && (forall i, j :: 0 <= i < j < |cs| ==> !SameReviewer(cs[i], cs[j]))
  }

  /** full_clean of a new Comment: the rating validators, then the uniqueness check,
      which is skipped when the user is null. */
  function ValidateComment(existing: seq<Comment>, c: Comment): (r: Option<CommentError>)
    ensures r.None? <==>
      RatingValid(c.rating) && forall i :: 0 <= i < |existing| ==> !SameReviewer(existing[i], c)
  {
    if !RatingValid(c.rating) then Some(RatingOutOfRange)
    else if exists i :: 0 <= i < |existing| && SameReviewer(existing[i], c) then Some(DuplicateReview)
    else None
  }

  lemma ValidatedCommentKeepsConsistency(cs: seq<Comment>, c: Comment)
    requires CommentsConsistent(cs) && ValidateComment(cs, c).None?
    ensures CommentsConsistent(cs + [c])
  {
    var cs' := cs + [c];
    forall i, j | 0 <= i < j < |cs'| ensures !SameReviewer(cs'[i], cs'[j]) {
      if j == |cs| {
        assert cs'[i] == cs[i] && cs'[j] == c;
      } else {
        assert cs'[i] == cs[i] && cs'[j] == cs[j];
      }
    }
  }

  // ---------------------------------------------------------------------------
  // The database

  predicate Distinct<T(==)>(s: seq<T>) {
    forall i, j :: 0 <= i < j < |s| ==> s[i] != s[j]
  }

  lemma DistinctCons<T>(x: T, s: seq<T>)
    ensures Distinct([x] + s) <==> x !in s && Distinct(s)
  {
    var xs := [x] + s;
    if x !in s && Distinct(s) {
      forall i, j | 0 <= i < j < |xs|
        ensures xs[i] != xs[j]
      {
        assert xs[j] == s[j - 1];
        if i > 0 {
          assert xs[i] == s[i - 1];
        }
      }
    }
    if Distinct(xs) {
      assert forall i, j :: 0 <= i < j < |s| ==> s[i] == xs[i + 1] && s[j] == xs[j + 1];
      forall k | 0 <= k < |s|
        ensures s[k] != x
      {
        assert xs[0] != xs[k + 1];
      }
    }
  }

  /** A sequence has no repeated element exactly when its multiset holds each
      element at most once. */
  lemma {:induction false} DistinctIsSingleCopies<T>(s: seq<T>)
    ensures Distinct(s) <==> forall x :: multiset(s)[x] <= 1
  {
    if s != [] {
      var t := s[1..];
      assert s == [s[0]] + t;
      DistinctCons(s[0], t);
      DistinctIsSingleCopies(t);
      assert forall x :: multiset(s)[x] == multiset(t)[x] + (if x == s[0] then 1 else 0);
      if forall x :: multiset(s)[x] <= 1 {
        assert multiset(t)[s[0]] == 0;
        assert forall x :: multiset(t)[x] <= multiset(s)[x];
      }
    }
  }

  /** Keeping some of the elements of a sequence without repeats gives no repeats. */
  lemma SubMultisetKeepsDistinct<T>(a: seq<T>, b: seq<T>)
    requires multiset(a) <= multiset(b) && Distinct(b)
    ensures Distinct(a)
  {
    DistinctIsSingleCopies(a);
    DistinctIsSingleCopies(b);
  }

  /** Without repeats, a sequence has as many elements as any set with the same members. */
  lemma SizeOfSameMembers<T>(s: seq<T>, members: set<T>)
    requires Distinct(s)
    requires forall x :: x in members <==> x in s
    ensures |members| == |s|
  {
    DistinctCard(s);
    assert members == set x | x in s;
  }

  /** Without repeats, a sequence has as many elements as its set of elements. */
  lemma {:induction false} DistinctCard<T>(s: seq<T>)
    requires Distinct(s)
    ensures |set x | x in s| == |s|
  {
    if s != [] {
      var t := s[1..];
      assert s == [s[0]] + t;
      DistinctCons(s[0], t);
      DistinctCard(t);
      assert (set x | x in s) == (set x | x in t) + {s[0]};
    }
  }

  /** At most one line per (cart, product): a product id appears on at most one line. */
  predicate NoDuplicateProducts(lines: seq<CartLine>) {
    forall i, j :: 0 <= i < j < |lines| && lines[i].product.Some? ==> lines[i].product != lines[j].product
  }

  /** A live foreign key points at an existing product. */
  predicate ReferencesExist(lines: seq<CartLine>, catalog: Catalog) {
    forall i :: 0 <= i < |lines| && lines[i].product.Some? ==> lines[i].product.value in catalog
  }

  predicate CartValid(lines: seq<CartLine>, catalog: Catalog) {
    NoDuplicateProducts(lines) && ReferencesExist(lines, catalog)
  }

  predicate OrderIdsBelow(orders: seq<Order>, next: nat) {
    (forall i :: 0 <= i < |orders| ==> orders[i].id < next)
    && (forall i, j :: 0 <= i < j < |orders| ==> orders[i].id < orders[j].id)
  }

  /** Every order item belongs to an order id already handed out. */
  predicate ItemOrdersBelow(items: seq<OrderItem>, next: nat) {
    forall i :: 0 <= i < |items| ==> items[i].order < next
  }

  predicate NotificationIdsBelow(ns: seq<Notification>, next: nat) {
    (forall i :: 0 <= i < |ns| ==> ns[i].id < next)
    && (forall i, j :: 0 <= i < j < |ns| ==> ns[i].id < ns[j].id)
  }

  /** The tables this core reads and writes. A user has a cart (a Booking) once
      the key is present; the views always use the user's first Booking. */
  class Store {
    var catalog: Catalog
    var carts: map<UserId, seq<CartLine>>
    /** The users of the group "Manager", in query order. */
    var managers: seq<UserId>
    var orders: seq<Order>
    var orderItems: seq<OrderItem>
    var notifications: seq<Notification>
    /** Product.favorites: (product, user) pairs. */
    var favorites: set<(ProductId, UserId)>
    var nextOrderId: OrderId
    var nextNotificationId: NotificationId

    ghost predicate Valid()
      reads this
    {
      && (forall u :: u in carts ==> CartValid(carts[u], catalog))
      && Distinct(managers)
      && OrderIdsBelow(orders, nextOrderId)
      && ItemOrdersBelow(orderItems, nextOrderId)
      && NotificationIdsBelow(notifications, nextNotificationId)
    }

    constructor (catalog: Catalog, managers: seq<UserId>)
      requires Distinct(managers)
      ensures Valid()
      ensures this.catalog == catalog && this.managers == managers
      ensures carts == map[] && orders == [] && orderItems == [] && notifications == []
      ensures favorites == {}
    {
      this.catalog := catalog;
      this.managers := managers;
      carts := map[];
      orders := [];
      orderItems := [];
      notifications := [];
      favorites := {};
      nextOrderId := 1;
      nextNotificationId := 1;
    }

    /** OrderNotification.mark_as_read: is_read becomes true; nothing else changes. */
    method MarkAsRead(i: nat)
      requires Valid() && i < |notifications|
      modifies this`notifications
      ensures Valid()
      ensures |notifications| == |old(notifications)|
      ensures notifications[i].isRead
      ensures notifications[i] == old(notifications[i]).(isRead := true)
      ensures forall j :: 0 <= j < |notifications| && j != i ==> notifications[j] == old(notifications[j])
      ensures old(notifications[i].isRead) ==> notifications == old(notifications)
    {
      notifications := notifications[i := notifications[i].(isRead := true)];
    }
  }
}
