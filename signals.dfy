// myapp/signals.py: notify_manager_on_order, the post_save receiver of Order.
// When an order has just been created it appends one OrderNotification per
// member of the "Manager" group, each naming the order and its local date.

module Signals {
  import opened Text
  import opened Models

  const MessagePrefix: string := "Нове замовлення № "
  const DateIntro: string := " від "

  /** A local time strftime('%d.%m.%Y, %H:%M') renders with a four-digit year. */
  predicate RenderableTime(t: LocalTime) {
    LocalTimeValid(t) && 1000 <= t.year <= 9999
  }

  /** strftime('%d.%m.%Y, %H:%M') */
  function FormatDate(t: LocalTime): string
    requires RenderableTime(t)
  {
    Pad2(t.day) + "." + Pad2(t.month) + "." + Digits(t.year) + ", " + Pad2(t.hour) + ":" + Pad2(t.minute)
  }

  /** f"Нове замовлення № {instance.id} від {formatted_date}" */
  function Message(orderId: OrderId, t: LocalTime): string
    requires RenderableTime(t)
  {
    MessagePrefix + Digits(orderId) + DateIntro + FormatDate(t)
  }

  /** The message text carries the order id right after the fixed prefix. */
  lemma MessageEmbedsOrderId(orderId: OrderId, t: LocalTime)
    requires RenderableTime(t)
    ensures Message(orderId, t)[..|MessagePrefix|] == MessagePrefix
    ensures Message(orderId, t)[|MessagePrefix|..|MessagePrefix| + |Digits(orderId)|] == Digits(orderId)
  {
  }

  lemma FormatDateInjective(s: LocalTime, t: LocalTime)
    requires RenderableTime(s) && RenderableTime(t)
    requires FormatDate(s) == FormatDate(t)
    ensures s == t
  {
    var a := FormatDate(s);
    var b := FormatDate(t);
    assert a[..2] == Pad2(s.day) && b[..2] == Pad2(t.day);
    Pad2Injective(s.day, t.day);
    assert a[3..5] == Pad2(s.month) && b[3..5] == Pad2(t.month);
    Pad2Injective(s.month, t.month);
    var restS := " " + Pad2(s.hour) + ":" + Pad2(s.minute);
    var restT := " " + Pad2(t.hour) + ":" + Pad2(t.minute);
    assert a[6..] == Digits(s.year) + [','] + restS;
    assert b[6..] == Digits(t.year) + [','] + restT;
    DigitRunSplit(Digits(s.year), restS, Digits(t.year), restT, ',');
    DigitsInjective(s.year, t.year);
    assert restS[1..3] == Pad2(s.hour) && restT[1..3] == Pad2(t.hour);
    Pad2Injective(s.hour, t.hour);
    assert restS[4..] == Pad2(s.minute) && restT[4..] == Pad2(t.minute);
    Pad2Injective(s.minute, t.minute);
  }

  /** What follows the prefix: the digits, a space, then the rest of the text. */
  lemma AfterPrefix(prefix: string, digits: string, rest: string)
    ensures (prefix + digits + DateIntro + rest)[|prefix|..] == digits + [' '] + ("від " + rest)
  {
    assert DateIntro == [' '] + "від ";
    assert prefix + digits + DateIntro + rest == prefix + (digits + [' '] + ("від " + rest));
  }

  /** Different orders, or different dates, never share a message: the text
      determines both the order id and the local date. */
  lemma MessageDeterminesOrderAndDate(i: OrderId, s: LocalTime, j: OrderId, t: LocalTime)
    requires RenderableTime(s) && RenderableTime(t)
    requires Message(i, s) == Message(j, t)
    ensures i == j && s == t
  {
    var restS := "від " + FormatDate(s);
    var restT := "від " + FormatDate(t);
    AfterPrefix(MessagePrefix, Digits(i), FormatDate(s));
    AfterPrefix(MessagePrefix, Digits(j), FormatDate(t));
    DigitRunSplit(Digits(i), restS, Digits(j), restT, ' ');
    DigitsInjective(i, j);
    assert restS[4..] == FormatDate(s) && restT[4..] == FormatDate(t);
    FormatDateInjective(s, t);
  }

  /** The records the receiver creates, one per manager in query order. */
  function NewNotifications(managers: seq<UserId>, order: Order, firstId: NotificationId, now: Instant): seq<Notification>
    requires RenderableTime(order.date.local)
  {
    seq(|managers|, i requires 0 <= i < |managers| =>
      Notification(firstId + i, managers[i], order.id, Message(order.id, order.date.local), now, false))
  }

  /** How many of the notifications are addressed to u. */
  function CountAddressedTo(ns: seq<Notification>, u: UserId): nat {
    if ns == [] then 0 else (if ns[0].user == u then 1 else 0) + CountAddressedTo(ns[1..], u)
  }

  /** Each created notification goes to its manager, names the triggering order,
      carries the order's message and starts unread. */
  lemma EachNotificationAddressedToItsManager(managers: seq<UserId>, order: Order, firstId: NotificationId, now: Instant)
    requires RenderableTime(order.date.local)
    ensures |NewNotifications(managers, order, firstId, now)| == |managers|
    ensures forall k :: 0 <= k < |managers| ==>
      var n := NewNotifications(managers, order, firstId, now)[k];
      n.user == managers[k] && n.order == order.id && !n.isRead &&
      n.message == Message(order.id, order.date.local) && n.createdAt == now
  {
  }

  /** Exactly one notification per manager, none for anybody else (so none at
      all when the group is empty). */
  lemma {:induction false} OneNotificationPerManager(managers: seq<UserId>, order: Order, firstId: NotificationId, now: Instant, u: UserId)
    requires RenderableTime(order.date.local) && Distinct(managers)
    ensures CountAddressedTo(NewNotifications(managers, order, firstId, now), u) == if u in managers then 1 else 0
    decreases |managers|
  {
    var ns := NewNotifications(managers, order, firstId, now);
    if managers != [] {
      var rest := managers[1..];
      assert ns[1..] == NewNotifications(rest, order, firstId + 1, now);
      OneNotificationPerManager(rest, order, firstId + 1, now, u);
      assert u in managers <==> u == managers[0] || u in rest;
      assert forall k :: 0 <= k < |rest| ==> rest[k] == managers[k + 1];
    }
  }

  /** notify_manager_on_order: nothing unless the order was just created; then one
      appended record per manager, leaving the existing records and the order alone. */
  method NotifyManagerOnOrder(db: Store, order: Order, created: bool, now: Instant)
    requires db.Valid() && RenderableTime(order.date.local)
    modifies db`notifications, db`nextNotificationId
    ensures db.Valid()
    ensures created ==>
      && db.notifications == old(db.notifications) + NewNotifications(db.managers, order, old(db.nextNotificationId), now)
      && db.nextNotificationId == old(db.nextNotificationId) + |db.managers|
    ensures !created ==>
      db.notifications == old(db.notifications) && db.nextNotificationId == old(db.nextNotificationId)
  {
    if created {
      var managers := db.managers;
      var message := Message(order.id, order.date.local);
      var firstId := db.nextNotificationId;
      for k := 0 to |managers|
        invariant db.notifications == old(db.notifications) + NewNotifications(managers[..k], order, firstId, now)
        invariant db.nextNotificationId == firstId + k
        invariant db.Valid()
      {
        var n := Notification(db.nextNotificationId, managers[k], order.id, message, now, false);
        assert NewNotifications(managers[..k + 1], order, firstId, now)
            == NewNotifications(managers[..k], order, firstId, now) + [n];
        db.notifications := db.notifications + [n];
        db.nextNotificationId := db.nextNotificationId + 1;
      }
      assert managers[..|managers|] == managers;
    }
  }
}
