// OrderNotificationView in myapp/views.py: GET lists the caller's own
// notifications with unread/read/total counts and a filter, newest first;
// POST marks one of the caller's own notifications as read.

module NotificationViews {
  import opened Models

  datatype FilterValue = Unread | Read | All

  /** Any filter other than 'read' or 'all' (or none) shows the unread ones. */
  function NormalizeFilter(param: Option<string>): (f: FilterValue)
    ensures f == Read <==> param == Some("read")
    ensures f == All <==> param == Some("all")
    ensures f == Unread <==> param != Some("read") && param != Some("all")
  {
    if param == Some("read") then Read
    else if param == Some("all") then All
    else Unread
  }

  predicate Shows(f: FilterValue, n: Notification) {
    match f
    case Unread => !n.isRead
    case Read => n.isRead
    case All => true
  }

  /** request.user.user_notifications.all() */
  function OwnedBy(ns: seq<Notification>, u: UserId): (r: seq<Notification>)
    ensures forall n :: n in r <==> n in ns && n.user == u
    ensures multiset(r) <= multiset(ns)
  {
    if ns == [] then []
    else
      assert ns == [ns[0]] + ns[1..];
      (if ns[0].user == u then [ns[0]] else []) + OwnedBy(ns[1..], u)
  }

  /** .filter(is_read=b) */
  function WithReadFlag(ns: seq<Notification>, b: bool): (r: seq<Notification>)
    ensures forall n :: n in r <==> n in ns && n.isRead == b
    ensures multiset(r) <= multiset(ns)
  {
    if ns == [] then []
    else
      assert ns == [ns[0]] + ns[1..];
      (if ns[0].isRead == b then [ns[0]] else []) + WithReadFlag(ns[1..], b)
  }

  /** Every notification is either read or unread: the two counts add up to the total,
      and together the two lists hold exactly the notifications. */
  lemma {:induction false} ReadAndUnreadPartition(ns: seq<Notification>)
    ensures |WithReadFlag(ns, false)| + |WithReadFlag(ns, true)| == |ns|
    ensures multiset(WithReadFlag(ns, false)) + multiset(WithReadFlag(ns, true)) == multiset(ns)
  {
    if ns != [] {
      ReadAndUnreadPartition(ns[1..]);
      assert ns == [ns[0]] + ns[1..];
    }
  }

  // ---------------------------------------------------------------------------
  // order_by('-created_at')

  /** Each notification is no older than the one after it. */
  predicate NewestFirst(s: seq<Notification>) {
    forall i :: 0 < i < |s| ==> s[i - 1].createdAt.stamp >= s[i].createdAt.stamp
  }

  /** Newest first between neighbours means newest first between any two. */
  lemma {:induction false} NewestFirstBetweenAny(s: seq<Notification>, i: nat, j: nat)
    requires NewestFirst(s) && i <= j < |s|
    ensures s[i].createdAt.stamp >= s[j].createdAt.stamp
    decreases j - i
  {
    if i < j {
      NewestFirstBetweenAny(s, i + 1, j);
    }
  }

  /** A notification no older than the head can go in front. */
  lemma NewestFirstCons(n: Notification, s: seq<Notification>)
    requires NewestFirst(s)
    requires s != [] ==> n.createdAt.stamp >= s[0].createdAt.stamp
    ensures NewestFirst([n] + s)
  {
    var r := [n] + s;
    forall i | 0 < i < |r|
      ensures r[i - 1].createdAt.stamp >= r[i].createdAt.stamp
    {
      assert r[i] == s[i - 1];
      if i > 1 {
        assert r[i - 1] == s[i - 2];
      }
    }
  }

  function InsertByDate(n: Notification, s: seq<Notification>): (r: seq<Notification>)
    requires NewestFirst(s)
    ensures |r| == |s| + 1
    ensures r[0] == n || (s != [] && r[0] == s[0])
    ensures NewestFirst(r)
    ensures multiset(r) == multiset(s) + multiset{n}
  {
    if s == [] then [n]
    else if n.createdAt.stamp >= s[0].createdAt.stamp then
      NewestFirstCons(n, s);
      [n] + s
    else
      var rest := InsertByDate(n, s[1..]);
      assert s == [s[0]] + s[1..];
      NewestFirstCons(s[0], rest);
      [s[0]] + rest
  }

  /** The notifications sorted newest first (ties keep no particular order, as in the database). */
  function SortNewestFirst(s: seq<Notification>): (r: seq<Notification>)
    ensures NewestFirst(r)
    ensures multiset(r) == multiset(s)
  {
    if s == [] then []
    else
      assert s == [s[0]] + s[1..];
      InsertByDate(s[0], SortNewestFirst(s[1..]))
  }

  // ---------------------------------------------------------------------------
  // GET

  datatype NotificationPage = NotificationPage(
    notifications: seq<Notification>,
    filterValue: FilterValue,
    unreadCount: nat,
    readCount: nat,
    totalCount: nat)

  function FilterBy(ns: seq<Notification>, f: FilterValue): seq<Notification> {
    match f
    case Unread => WithReadFlag(ns, false)
    case Read => WithReadFlag(ns, true)
    case All => ns
  }

  lemma OwnedByCount(ns: seq<Notification>, u: UserId)
    requires Distinct(ns)
    ensures Distinct(OwnedBy(ns, u))
    ensures |OwnedBy(ns, u)| == |set n | n in ns && n.user == u|
  {
    var r := OwnedBy(ns, u);
    SubMultisetKeepsDistinct(r, ns);
    SizeOfSameMembers(r, set n | n in ns && n.user == u);
  }

  /** When no notification is stored twice (ids are unique), each count is the
      number of distinct notifications of that kind. */
  lemma CountsAreSetSizes(ns: seq<Notification>, user: UserId)
    requires Distinct(ns)
    ensures |OwnedBy(ns, user)| == |set n | n in ns && n.user == user|
    ensures |WithReadFlag(OwnedBy(ns, user), false)| == |set n | n in ns && n.user == user && !n.isRead|
    ensures |WithReadFlag(OwnedBy(ns, user), true)| == |set n | n in ns && n.user == user && n.isRead|
  {
    var mine := OwnedBy(ns, user);
    OwnedByCount(ns, user);
    var unread := WithReadFlag(mine, false);
    SubMultisetKeepsDistinct(unread, mine);
    SizeOfSameMembers(unread, set n | n in ns && n.user == user && !n.isRead);
    var read := WithReadFlag(mine, true);
    SubMultisetKeepsDistinct(read, mine);
    SizeOfSameMembers(read, set n | n in ns && n.user == user && n.isRead);
  }

  /** OrderNotificationView.get */
  function NotificationList(ns: seq<Notification>, user: UserId, filterParam: Option<string>): (page: NotificationPage)
    ensures page.unreadCount + page.readCount == page.totalCount
    ensures page.filterValue == NormalizeFilter(filterParam)
    ensures NewestFirst(page.notifications)
    ensures forall n :: n in page.notifications <==> n in ns && n.user == user && Shows(page.filterValue, n)
    ensures |page.notifications| == match page.filterValue
      case Unread => page.unreadCount
      case Read => page.readCount
      case All => page.totalCount
    ensures Distinct(ns) ==> Distinct(page.notifications)
    ensures Distinct(ns) ==>
      && page.totalCount == |set n | n in ns && n.user == user|
      && page.unreadCount == |set n | n in ns && n.user == user && !n.isRead|
      && page.readCount == |set n | n in ns && n.user == user && n.isRead|
  {
    var mine := OwnedBy(ns, user);
    var f := NormalizeFilter(filterParam);
    var shown := SortNewestFirst(FilterBy(mine, f));
    ReadAndUnreadPartition(mine);
    assert |shown| == |multiset(shown)| == |multiset(FilterBy(mine, f))| == |FilterBy(mine, f)|;
    assert Distinct(ns) ==> Distinct(shown) by {
      if Distinct(ns) {
        SubMultisetKeepsDistinct(mine, ns);
        SubMultisetKeepsDistinct(shown, mine);
      }
    }
    assert Distinct(ns) ==>
      && |mine| == |set n | n in ns && n.user == user|
      && |WithReadFlag(mine, false)| == |set n | n in ns && n.user == user && !n.isRead|
      && |WithReadFlag(mine, true)| == |set n | n in ns && n.user == user && n.isRead|
    by {
      if Distinct(ns) {
        CountsAreSetSizes(ns, user);
      }
    }
    assert forall n :: n in shown <==> n in FilterBy(mine, f) by {
      forall n ensures n in shown <==> n in FilterBy(mine, f) {
        assert n in shown <==> n in multiset(shown);
      }
    }
    NotificationPage(shown, f, |WithReadFlag(mine, false)|, |WithReadFlag(mine, true)|, |mine|)
  }

  // ---------------------------------------------------------------------------
  // POST

  /** request.user.user_notifications.filter(pk=id).first() */
  function FindOwn(ns: seq<Notification>, u: UserId, id: NotificationId): (r: Option<nat>)
    ensures r.Some? ==> r.value < |ns| && ns[r.value].id == id && ns[r.value].user == u
    ensures r.Some? ==> forall j :: 0 <= j < r.value ==> !(ns[j].id == id && ns[j].user == u)
    ensures r.None? ==> forall j :: 0 <= j < |ns| ==> !(ns[j].id == id && ns[j].user == u)
  {
    if ns == [] then None
    else if ns[0].id == id && ns[0].user == u then Some(0)
    else match FindOwn(ns[1..], u, id)
      case Some(k) => Some(k + 1)
      case None => None
  }

  /** What the POST does to the notifications: the caller's own notification with
      that id becomes read if it was unread; nothing happens otherwise. */
  function MarkOwnRead(ns: seq<Notification>, u: UserId, id: Option<NotificationId>): seq<Notification> {
    if id.None? then ns
    else match FindOwn(ns, u, id.value)
      case Some(i) => if !ns[i].isRead then ns[i := ns[i].(isRead := true)] else ns
      case None => ns
  }

  /** FindOwn only looks at ids and addressees, so flipping read flags does not move it. */
  lemma {:induction false} FindOwnIgnoresReadFlag(ns: seq<Notification>, i: nat, u: UserId, id: NotificationId)
    requires i < |ns|
    ensures FindOwn(ns[i := ns[i].(isRead := true)], u, id) == FindOwn(ns, u, id)
  {
    var ms := ns[i := ns[i].(isRead := true)];
    if i > 0 && !(ns[0].id == id && ns[0].user == u) {
      assert ms[1..] == ns[1..][i - 1 := ns[i].(isRead := true)];
      FindOwnIgnoresReadFlag(ns[1..], i - 1, u, id);
    } else if i == 0 {
      assert ms[1..] == ns[1..];
    }
  }

  /** Only the caller's own notification can change, and only its read flag. */
  lemma MarkOwnReadTouchesOnlyOwn(ns: seq<Notification>, u: UserId, id: Option<NotificationId>)
    ensures |MarkOwnRead(ns, u, id)| == |ns|
    ensures forall i :: 0 <= i < |ns| && ns[i].user != u ==> MarkOwnRead(ns, u, id)[i] == ns[i]
    ensures forall i :: 0 <= i < |ns| ==>
      MarkOwnRead(ns, u, id)[i] == ns[i] ||
      (ns[i].user == u && id == Some(ns[i].id) && MarkOwnRead(ns, u, id)[i] == ns[i].(isRead := true))
  {
  }

  /** The targeted notification ends up read. */
  lemma MarkOwnReadMarks(ns: seq<Notification>, u: UserId, id: NotificationId)
    requires FindOwn(ns, u, id).Some?
    ensures MarkOwnRead(ns, u, Some(id))[FindOwn(ns, u, id).value].isRead
  {
  }

  /** Posting the same id twice is the same as posting it once. */
  lemma MarkOwnReadIdempotent(ns: seq<Notification>, u: UserId, id: Option<NotificationId>)
    ensures MarkOwnRead(MarkOwnRead(ns, u, id), u, id) == MarkOwnRead(ns, u, id)
  {
    if id.Some? {
      match FindOwn(ns, u, id.value)
      case Some(i) =>
        if !ns[i].isRead {
          FindOwnIgnoresReadFlag(ns, i, u, id.value);
        }
      case None =>
    }
  }

  /** OrderNotificationView.post */
  method NotificationPost(db: Store, user: UserId, notificationId: Option<NotificationId>)
    requires db.Valid()
    modifies db`notifications
    ensures db.Valid()
    ensures db.notifications == MarkOwnRead(old(db.notifications), user, notificationId)
  {
    if notificationId.Some? {
      var found := FindOwn(db.notifications, user, notificationId.value);
      if found.Some? && !db.notifications[found.value].isRead {
        var i := found.value;
        db.notifications := db.notifications[i := db.notifications[i].(isRead := true)];
      }
    }
  }
}
