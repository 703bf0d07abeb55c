# Cart, checkout and manager notifications of the online store

A Dafny model of the cart-to-order core of a Django online store (the `myapp`
application). The model covers:

- the cart (`Booking` with its `BookingItem` lines): adding a product,
  removing a line, setting a quantity, clearing the cart, and the cart total;
- checkout (`OrderCreateView.post`): the guards, the card-field checks,
  `Order.full_clean` with `Order.clean`, the order save, the `OrderItem`
  snapshot and the clearing of the cart;
- the `post_save` receiver that sends every manager an `OrderNotification`
  when an order is created;
- the notification page: the filter, the read/unread/total counts, the
  newest-first order, and marking one's own notification as read;
- the order confirmation page's access rule (the owner or any manager);
- the small helpers: `pluralize_reviews`, the favourite toggle, the phone
  validator, and the comment rating and uniqueness constraints.

Layout, one module per file:

| file | module | contents |
|---|---|---|
| `text.dfy` | `Text` | decimal digits: `str(n)`, `int(s)`, `isdigit`, two-digit padding |
| `models.dfy` | `Models` | the records of `myapp/models.py`, `get_total_price`, `Order.clean`/`full_clean`, the phone validator, the comment constraints, and the class `Store` holding the tables |
| `views_cart.dfy` | `CartViews` | the four cart views |
| `signals.dfy` | `Signals` | `notify_manager_on_order` |
| `views_order.dfy` | `OrderViews` | checkout and `OrderConfirmView` |
| `views_notifications.dfy` | `NotificationViews` | `OrderNotificationView` GET and POST |
| `views_product.dfy` | `ProductViews` | `pluralize_reviews` and `ProductFavoriteView` |

Representation choices:

- **Money.** Prices are `DecimalField(decimal_places=2)`, so amounts are whole
  cents (`nat`).
- **Deleted products.** A foreign key with `on_delete=SET_NULL` is
  `Option<ProductId>`; `None` means the product was deleted.
- **The database.** It is the class `Store`. Its fields are sequences, maps and
  sets, and the views and the signal receiver are methods that update them.
- **Views.** What each view does to its data is a function on values, and the
  lemmas about the view are stated over that function.
- **Request parameters.** They are `Option`s, with `None` for an absent
  parameter.
- **Clock and localtime.** The current time is a parameter `now`. It carries an
  ordering stamp and the local calendar time that `localtime` would give.

Where the code and its design description disagree, the model follows the code:

- **No transaction.** The order build is not atomic. The design calls for an
  all-or-nothing unit. The code saves the order, which fires the notifications,
  before it creates the items, with no transaction. A cart line whose product
  was deleted then raises `AttributeError` part-way through. `OrderCreatePost`
  keeps the order, its notifications and the items created so far, answers
  `ServerError`, and leaves the cart as it was (see Findings).
- **Remove with no cart.** It answers 404. It is not a no-op.
- **Non-integer quantity.** Setting a quantity that is not an integer leaves
  the cart unchanged.
- **Blank address.** A checkout without a `delivery_address` fails `full_clean`
  with the "blank" message. The field default `'Потребує уточнення'` is never
  used, because the view passes `''`.
- **First error of `full_clean`.** `full_clean` reports the field errors in
  field order, then `clean()`, and the form shows the first one.
  `Models.FullClean` returns that first error.

## Model

| member | source | states |
|---|---|---|
| `Models.Total` | myapp/models.py:53-54 | `get_total_price`; its meaning is stated by `TotalIsSumOverLiveLines`, `TotalOfDeadLines`, `TotalAppend`, `TotalUpdate` and `TotalRemove` |
| `Models.TotalIsSumOverLiveLines` | myapp/models.py:53-54 | the cart total equals the plain sum of price × quantity over the lines whose product still exists |
| `Models.TotalOfDeadLines` | myapp/models.py:53-54 | a cart whose products were all deleted, or an empty cart, totals 0 |
| `Models.LiveLines` | myapp/models.py:54 | the `if item.product` filter keeps exactly the lines whose product exists, and never adds or repeats a line (a sub-multiset of the cart) |
| `Models.TotalAppend` | myapp/models.py:53-54 | the total of two groups of lines is the sum of their totals |
| `Models.TotalUpdate` | myapp/models.py:53-54 | replacing one line moves the total by the difference of the two lines' shares |
| `Models.TotalRemove` | myapp/models.py:53-54 | deleting one line lowers the total by exactly that line's share |
| `Models.OrderClean` | myapp/models.py:94-99 | `clean` fails exactly for postomat delivery with cash on delivery |
| `Models.FullClean` | myapp/models.py:83-99 | passes exactly when the total has at most 8 integer digits, the delivery and payment are among their choices, the address is non-blank and at most 255 characters, and `clean` passes; reports the incompatibility only for postomat with cash |
| `Models.PhoneFieldExactly` | myapp/models.py:112-123 | the phone field accepts exactly "" and "+380" followed by nine digits |
| `Models.PhoneRegexAcceptsTrailingNewline` | myapp/models.py:112-123 | the regex alone accepts "+380501234567\n" (Python `$`), and `max_length=13` rejects it |
| `Models.ValidateComment` | myapp/models.py:32-40 | a new comment is accepted exactly when its rating is in 1..5 and no stored comment has the same product and the same non-null user |
| `Models.ValidatedCommentKeepsConsistency` | myapp/models.py:37-40 | storing an accepted comment keeps every rating in range and one review per (product, user) |
| `Models.Store.MarkAsRead` | myapp/models.py:140-142 | `is_read` becomes true, no other field or notification changes, and marking a read notification changes nothing |
| `CartViews.FindLine` | myapp/views.py:306 | `items.filter(product_id=p).first()`: the first line holding p, or none when no line holds p |
| `CartViews.ClampQuantity` | myapp/views.py:327 | `max(1, int(q))`: never below 1, equal to q when q ≥ 1 |
| `CartViews.AddLine` | myapp/views.py:259-264 | what adding does to the cart lines; stated by `AddKeepsOneLinePerProduct`, `AddCountsOneMore`, `AddRaisesTotalByPrice` and `AddTwiceMakesOneLineOfTwo` |
| `CartViews.AddKeepsOneLinePerProduct` | myapp/views.py:259-264 | add never creates a second line for a product |
| `CartViews.AddCountsOneMore` | myapp/views.py:259-264 | add raises the product's count by one, keeps every other count, and adds a line only when the product had none |
| `CartViews.AddRaisesTotalByPrice` | myapp/views.py:259-266 | the returned total is the old total plus the product's price |
| `CartViews.AddTwiceMakesOneLineOfTwo` | myapp/views.py:259-264 | adding the same product twice to an empty cart gives one line of quantity 2 |
| `CartViews.RemoveLine` | myapp/views.py:306-308 | what removing does to the cart lines; stated by `RemoveDeletesWholeLine`, `RemoveKeepsOtherCounts`, `RemoveIsIdempotent`, `RemoveKeepsOneLinePerProduct` and `RemoveLowersTotalByLine` |
| `CartViews.RemoveDeletesWholeLine` | myapp/views.py:306-308 | remove deletes the whole line, not one unit: afterwards the product is absent, the cart lost exactly that one line (as multisets) and every other line is kept; with no line for the product the cart is unchanged |
| `CartViews.RemoveKeepsOtherCounts` | myapp/views.py:306-308 | removing p leaves every other product's count unchanged |
| `CartViews.RemoveIsIdempotent` | myapp/views.py:306-308 | removing twice equals removing once |
| `CartViews.RemoveKeepsOneLinePerProduct` | myapp/views.py:306-308 | remove keeps one line per product |
| `CartViews.RemoveLowersTotalByLine` | myapp/views.py:306-314 | the returned total drops by exactly the removed line's share, or stays when there was no line |
| `CartViews.SetLineQuantity` | myapp/views.py:335-338 | what setting a quantity does to the cart lines; stated by `SetQuantitySetsCount` and `SetQuantityKeepsOneLinePerProduct` |
| `CartViews.SetQuantitySetsCount` | myapp/views.py:335-338 | the product's count becomes exactly the new quantity when it has a line, and other counts stay |
| `CartViews.SetQuantityKeepsOneLinePerProduct` | myapp/views.py:335-338 | setting a quantity keeps the number of lines and one line per product |
| `CartViews.BookingCreate` | myapp/views.py:252-266 | a missing id gives 400 and an unknown product gives 404, both without a change; otherwise the cart (created if absent) becomes `AddLine` of the old one and the reply carries its total |
| `CartViews.BookingDelete` | myapp/views.py:297-314 | a missing id gives 400 and no cart gives 404, both without a change; otherwise the cart becomes `RemoveLine` of the old one and the reply carries its total and the id |
| `CartViews.BookingUpdateQuantity` | myapp/views.py:319-340 | with an id, an integer quantity and a cart, the line gets `max(1, q)`; in every other case nothing changes |
| `CartViews.BookingClear` | myapp/views.py:345-350 | the user's cart loses every line, other carts are untouched, and a user without a cart changes nothing |
| `Signals.FormatDate` | myapp/signals.py:11-12 | `strftime('%d.%m.%Y, %H:%M')` on the local time; stated by `FormatDateInjective` |
| `Signals.Message` | myapp/signals.py:18 | the notification text; stated by `MessageEmbedsOrderId` and `MessageDeterminesOrderAndDate` |
| `Signals.MessageEmbedsOrderId` | myapp/signals.py:18 | the message is the fixed prefix followed by the order id in decimal |
| `Signals.FormatDateInjective` | myapp/signals.py:11-12 | `dd.mm.YYYY, HH:MM` determines the local date and time |
| `Signals.MessageDeterminesOrderAndDate` | myapp/signals.py:11-18 | two messages are equal only for the same order id and the same local time |
| `Signals.NewNotifications` | myapp/signals.py:14-19 | the records the loop creates; stated by `EachNotificationAddressedToItsManager` and `OneNotificationPerManager` |
| `Signals.EachNotificationAddressedToItsManager` | myapp/signals.py:14-19 | one record per manager, in query order: addressed to that manager, referencing the order, carrying its message, created now and unread |
| `Signals.OneNotificationPerManager` | myapp/signals.py:10-19 | every manager receives exactly one notification and nobody else receives any, so none are sent when there are no managers |
| `Signals.NotifyManagerOnOrder` | myapp/signals.py:7-19 | nothing happens unless the order was just created; otherwise the new records are appended after the existing ones, which are kept, and no order changes |
| `OrderViews.CardError` | myapp/views.py:410-417 | the card checks run in a fixed order: number of 16 digits, month 01..12, year of 2 digits, CVV of 3 digits; exactly the first failing check is reported |
| `OrderViews.CardMonthExactly` | myapp/views.py:412 | the month passes exactly when it is two digits whose value is between 1 and 12 |
| `OrderViews.Decide` | myapp/views.py:392-439 | the answer is a redirect back to the form exactly when the action is not `submit_order`, there is no cart, or the cart has no lines |
| `OrderViews.DecideCreatesExactly` | myapp/views.py:392-439 | an order is created exactly when the form is submitted, the cart has lines, the card checks pass (when paying by card) and `full_clean` passes; the order then carries the cart total and valid choices |
| `OrderViews.PostomatWithCashNeverCreates` | myapp/views.py:429-439 | postomat delivery paid on delivery never creates an order |
| `OrderViews.CardErrorWinsOverFullClean` | myapp/views.py:404-417 | once the guards pass, a failing card check is reported, before anything `full_clean` would say |
| `OrderViews.FullCleanErrorReported` | myapp/views.py:429-439 | once the guards and the card checks pass, a `full_clean` failure is reported with its first message |
| `OrderViews.CardFieldsIgnoredUnlessCard` | myapp/views.py:402-404 | unless the payment is by card, the card fields do not affect the answer |
| `OrderViews.BadCardNumberWins` | myapp/views.py:392-411 | paying by card with a bad card number gives the card-number error when the guards pass, and the redirect to the form when they do not |
| `OrderViews.Snapshot` | myapp/views.py:443-449 | the items a complete loop creates; stated by `SnapshotTotalIsCartTotal` and `ItemsOfFreshOrder` |
| `OrderViews.SnapshotTotalIsCartTotal` | myapp/views.py:419-449 | the order items sum to the cart total the order was saved with |
| `OrderViews.FirstDeadLine` | myapp/views.py:443-449 | the position where the item loop stops: every line before it has a live product, and the line there (if any) does not |
| `OrderViews.FirstDeadLineIs` | myapp/views.py:443-449 | that position is unique |
| `OrderViews.ItemsOfFreshOrder` | myapp/views.py:443-449 | the items of a newly created order are exactly the items appended for it |
| `OrderViews.CreateOrderItems` | myapp/views.py:443-449 | one item per line, with the same product and quantity and the product's current price, up to the first deleted product; reports whether every line was copied |
| `OrderViews.SaveOrderWithItems` | myapp/views.py:441-449 | saving appends the order, then the manager notifications, then the items, keeping everything stored before; the order counter moves by one and the notification counter by the number of managers |
| `OrderViews.RenderWithError` | myapp/views.py:455-478 | a server error exactly when some cart line's product was deleted (`item.product.name`), and otherwise the form with the given error |
| `OrderViews.OrderCreatePost` | myapp/views.py:391-478 | the redirect, a card error and a `full_clean` error change nothing; on success the order has the cart total, its items sum to that total, managers are notified and the cart is emptied; a deleted product gives `ServerError` with the order kept and the cart untouched |
| `OrderViews.FailedCheckoutLeavesOrderBehind` | myapp/views.py:441-449 | a cart holding a deleted product's line before a live one produces a stored order of 100 cents with no items |
| `OrderViews.OrderCreatePostAtomic` | myapp/views.py:391-453 | the all-or-nothing build: every outcome other than the confirmation redirect leaves the store unchanged; on success the order, its notifications and exactly its snapshot items are appended, both counters advance, the items sum to the cart total and the cart is emptied |
| `OrderViews.FindOrder` | myapp/views.py:483 | `get_object_or_404(Order, id=...)`: a matching order, or none exists |
| `OrderViews.MayViewOrder` | myapp/views.py:486-489 | the owner or a manager; stated by `OrderConfirmAccess` |
| `OrderViews.OrderConfirm` | myapp/views.py:482-509 | the confirmation page; stated by `OrderConfirmAccess` |
| `OrderViews.OrderConfirmAccess` | myapp/views.py:482-509 | an unknown id gives not-found; the page is shown exactly to the owner and to managers; the page lists one line per item of that order |
| `NotificationViews.NormalizeFilter` | myapp/views.py:533-540 | 'read' and 'all' are kept, and any other value or no value becomes 'unread' |
| `NotificationViews.OwnedBy` | myapp/views.py:527 | exactly the caller's notifications, none added or repeated |
| `NotificationViews.WithReadFlag` | myapp/views.py:528-529 | exactly the notifications with that read flag, none added or repeated |
| `NotificationViews.ReadAndUnreadPartition` | myapp/views.py:528-530 | the unread and read counts add up to the total, and the two lists hold exactly the notifications |
| `NotificationViews.OwnedByCount` | myapp/views.py:527-530 | without repeated records, the total is the number of distinct notifications addressed to the caller |
| `NotificationViews.CountsAreSetSizes` | myapp/views.py:527-530 | without repeated records, the total, unread and read counts are the numbers of distinct notifications of the caller, of those unread and of those read |
| `NotificationViews.InsertByDate` | myapp/views.py:542 | inserting into a newest-first list keeps it newest first and adds exactly that record |
| `NotificationViews.NewestFirstBetweenAny` | myapp/views.py:542 | in a newest-first list every notification is no older than any later one |
| `NotificationViews.SortNewestFirst` | myapp/views.py:542 | `order_by('-created_at')`: newest first, and a permutation of the input |
| `NotificationViews.NotificationList` | myapp/views.py:523-550 | the counts add up to the total; the list is newest first, holds exactly the caller's notifications that the filter shows, and is as long as the count for its filter; when the stored records have no repeats (unique ids), neither has the list, and the three counts are the sizes of the sets of the caller's notifications, unread ones and read ones |
| `NotificationViews.FindOwn` | myapp/views.py:555 | `user_notifications.filter(pk=id).first()`: only the caller's notification with that id is found |
| `NotificationViews.FindOwnIgnoresReadFlag` | myapp/views.py:555 | the lookup does not depend on read flags |
| `NotificationViews.MarkOwnRead` | myapp/views.py:552-559 | what the POST does to the notifications; stated by `MarkOwnReadTouchesOnlyOwn`, `MarkOwnReadMarks` and `MarkOwnReadIdempotent` |
| `NotificationViews.MarkOwnReadTouchesOnlyOwn` | myapp/views.py:552-559 | only the caller's own notification with the posted id can change, and only by becoming read; other users' notifications never change |
| `NotificationViews.MarkOwnReadMarks` | myapp/views.py:556-558 | the caller's notification with that id ends up read |
| `NotificationViews.MarkOwnReadIdempotent` | myapp/views.py:552-559 | posting the same id twice equals posting it once |
| `NotificationViews.NotificationPost` | myapp/views.py:552-559 | the notifications become `MarkOwnRead` of the old ones, and the store stays valid |
| `ProductViews.ReviewWord` | myapp/views.py:108-115 | the noun is one of the three forms відгук, відгуки or відгуків |
| `ProductViews.PluralizeReviews` | myapp/views.py:108-115 | the text starts with the count in decimal, then a space, then the noun |
| `ProductViews.TeensTakeGenitivePlural` | myapp/views.py:110-115 | counts ending in 11..19 (modulo 100) take відгуків |
| `ProductViews.LastDigitDecides` | myapp/views.py:110-115 | outside the teens, the form is that of the last digit |
| `ProductViews.FormRepeatsEveryHundred` | myapp/views.py:110-115 | the form of n + 100 is the form of n |
| `ProductViews.PluralizeReviewsInjective` | myapp/views.py:108-115 | the count can be read back: different counts give different texts |
| `ProductViews.Toggle` | myapp/views.py:688-691 | the caller's mark on that product flips, and every other (product, user) pair is unchanged |
| `ProductViews.ToggleTwiceRestores` | myapp/views.py:688-691 | toggling twice restores the favourites |
| `ProductViews.ToggleFavorite` | myapp/views.py:685-694 | an unknown product gives not-found without a change; otherwise the favourites become `Toggle` of the old ones; the store stays valid |

## Left out

- HTTP, templates, redirects and the URL configuration. Views return abstract
  outcomes, and `_render_with_error` is reduced to the crash it can raise.
- The ORM. Tables are sequences and maps. Generated ids are the counters
  `nextOrderId` and `nextNotificationId`. Database integer widths are not
  modelled.
- Non-numeric ids. A `product_id` or `notification_id` that is not a number
  raises `ValueError` (a server error) in the source. The model takes ids as
  numbers.
- `isdigit` and `\d`. The model accepts the ASCII digits only. Python's
  `\d` accepts every Unicode decimal digit, and `str.isdigit` also accepts
  digits that are not decimal, such as '²'. For a card month of such
  characters `int(card_month)` at myapp/views.py:412 raises `ValueError`, a
  server error, which the model does not have.
- Time. Time-zone conversion and `strftime` are not modelled. The local time is
  given as integers, and the date is rendered only for years 1000 to 9999.
- Concurrency. The race between `get_or_create` and the increment, and
  concurrent checkouts, are not modelled; each request runs alone.
- Multiple `Booking` rows per user. The views always use the first, so the
  model keeps one cart per user.
- Negative prices. Prices are `nat` cents.
- Redirect targets. `ProductFavoriteView` redirects to the referrer and
  `OrderNotificationView.post` to the same page; both are an abstract redirect.
- Other views. `get_review_stats` (a floating-point average), random product
  ordering, text search, `OrderListView`, the authentication and profile views,
  and `myapp/forms.py` are not part of this model.
- Migrations and the JavaScript files are not part of this model.
- `NotificationViews.SortNewestFirst`: notifications with equal `created_at`
  come out in an unspecified order, as in the database.

## Findings

| source | as written | input that shows it | evidently intended | confidence | as-written member | corrected member |
|---|---|---|---|---|---|---|
| myapp/views.py:441-451 | the order is saved (and managers notified) before its items are created, with no transaction; a line whose product was deleted raises at `item.product.price` | cart `[deleted-product line, live line of 100 cents]`, submitted with a valid address | an all-or-nothing order build: a failing checkout stores no order, sends no notification and keeps the cart | medium, not executed | `OrderViews.FailedCheckoutLeavesOrderBehind` | `OrderViews.OrderCreatePostAtomic` |
