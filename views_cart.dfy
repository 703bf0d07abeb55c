// The cart views of myapp/views.py: BookingCreateView (add), BookingDeleteView
// (remove a whole line), BookingUpdateQuantityView (set the quantity) and
// BookingClearView (empty the cart). Each view is a method on the database; what
// it does to the user's lines is given by a function on values, and the
// lemmas below are about those functions.

module CartViews {
  import opened Models

  /** The JSON answers of the AJAX cart endpoints. */
  datatype JsonResponse =
    | Added(totalPrice: Cents)
    | Removed(totalPrice: Cents, deletedProductId: ProductId)
    | Failure(status: nat)

  /** The quantity field of the set-quantity form, as int() sees it. */
  datatype QuantityParam = QuantityMissing | NotAnInteger | IntValue(v: int)

  /** booking.items.filter(product_id=p).first(): the first line holding p. */
  function FindLine(lines: seq<CartLine>, p: ProductId): (r: Option<nat>)
    ensures r.Some? ==> r.value < |lines| && lines[r.value].product == Some(p)
    ensures r.Some? ==> forall j :: 0 <= j < r.value ==> lines[j].product != Some(p)
    ensures r.None? ==> forall j :: 0 <= j < |lines| ==> lines[j].product != Some(p)
  {
    if lines == [] then None
    else if lines[0].product == Some(p) then Some(0)
    else match FindLine(lines[1..], p)
      case Some(k) => Some(k + 1)
      case None => None
  }

  /** The lines of a user's cart; a user without a Booking has none. */
  function CartOf(carts: map<UserId, seq<CartLine>>, u: UserId): seq<CartLine> {
    if u in carts then carts[u] else []
  }

  /** How many units of product p the lines hold. */
  function QuantityOf(lines: seq<CartLine>, p: ProductId): nat {
    if lines == [] then 0
    else (if lines[0].product == Some(p) then lines[0].quantity else 0) + QuantityOf(lines[1..], p)
  }

  // ---------------------------------------------------------------------------
  // The effect of each view on the user's lines

  /** get_or_create the line for p, then add one to it if it already existed. */
  function AddLine(lines: seq<CartLine>, p: ProductId): seq<CartLine> {
    match FindLine(lines, p)
    case Some(i) => lines[i := lines[i].(quantity := lines[i].quantity + 1)]
    case None => lines + [CartLine(Some(p), DefaultQuantity)]
  }

  /** Delete the line holding p, whatever its quantity; no line, no change. */
  function RemoveLine(lines: seq<CartLine>, p: ProductId): seq<CartLine> {
    match FindLine(lines, p)
    case Some(i) => lines[..i] + lines[i + 1..]
    case None => lines
  }

  /** max(1, int(quantity)): the stored quantity is never below one. */
  function ClampQuantity(v: int): (q: nat)
    ensures q >= 1
    ensures v >= 1 ==> q == v
    ensures v < 1 ==> q == 1
  {
    if v < 1 then 1 else v
  }

  /** Set the quantity of the line holding p; no line, no change. */
  function SetLineQuantity(lines: seq<CartLine>, p: ProductId, q: nat): seq<CartLine> {
    match FindLine(lines, p)
    case Some(i) => lines[i := lines[i].(quantity := q)]
    case None => lines
  }

  // ---------------------------------------------------------------------------
  // Lemmas about one product's count

  lemma {:induction false} QuantityOfAppend(a: seq<CartLine>, b: seq<CartLine>, p: ProductId)
    ensures QuantityOf(a + b, p) == QuantityOf(a, p) + QuantityOf(b, p)
  {
    if a == [] {
      assert a + b == b;
    } else {
      assert (a + b)[1..] == a[1..] + b;
      QuantityOfAppend(a[1..], b, p);
    }
  }

  lemma {:induction false} QuantityOfAbsent(lines: seq<CartLine>, p: ProductId)
    requires forall j :: 0 <= j < |lines| ==> lines[j].product != Some(p)
    ensures QuantityOf(lines, p) == 0
  {
    if lines != [] {
      QuantityOfAbsent(lines[1..], p);
    }
  }

  /** With one line per product, p's count is the quantity on its line. */
  lemma QuantityOfFoundLine(lines: seq<CartLine>, p: ProductId, i: nat)
    requires NoDuplicateProducts(lines) && i < |lines| && lines[i].product == Some(p)
    ensures QuantityOf(lines, p) == lines[i].quantity
  {
    assert lines == lines[..i] + [lines[i]] + lines[i + 1..];
    QuantityOfAppend(lines[..i] + [lines[i]], lines[i + 1..], p);
    QuantityOfAppend(lines[..i], [lines[i]], p);
    QuantityOfAbsent(lines[..i], p);
    QuantityOfAbsent(lines[i + 1..], p);
    assert QuantityOf([lines[i]], p) == lines[i].quantity by {
      assert [lines[i]][1..] == [];
    }
  }

  /** Replacing line i changes only the counts of the products on the old and new line. */
  lemma QuantityOfUpdate(lines: seq<CartLine>, i: nat, line: CartLine, p: ProductId)
    requires i < |lines| && lines[i].product == line.product
    ensures QuantityOf(lines[i := line], p) + (if line.product == Some(p) then lines[i].quantity else 0)
         == QuantityOf(lines, p) + (if line.product == Some(p) then line.quantity else 0)
  {
    assert lines == lines[..i] + [lines[i]] + lines[i + 1..];
    assert lines[i := line] == lines[..i] + [line] + lines[i + 1..];
    QuantityOfAppend(lines[..i] + [lines[i]], lines[i + 1..], p);
    QuantityOfAppend(lines[..i], [lines[i]], p);
    QuantityOfAppend(lines[..i] + [line], lines[i + 1..], p);
    QuantityOfAppend(lines[..i], [line], p);
    assert [lines[i]][1..] == [] && [line][1..] == [];
  }

  // ---------------------------------------------------------------------------
  // Add to cart

  /** Adding never creates a second line for a product. */
  lemma AddKeepsOneLinePerProduct(lines: seq<CartLine>, p: ProductId)
    requires NoDuplicateProducts(lines)
    ensures NoDuplicateProducts(AddLine(lines, p))
  {
  }

  /** Add raises p's count by one, leaves every other product's count alone,
      and grows the cart by a line only when p had none. */
  lemma AddCountsOneMore(lines: seq<CartLine>, p: ProductId, other: ProductId)
    requires other != p
    ensures QuantityOf(AddLine(lines, p), p) == QuantityOf(lines, p) + 1
    ensures QuantityOf(AddLine(lines, p), other) == QuantityOf(lines, other)
    ensures |AddLine(lines, p)| == |lines| + (if FindLine(lines, p).None? then 1 else 0)
  {
    match FindLine(lines, p)
    case Some(i) =>
      var line := lines[i].(quantity := lines[i].quantity + 1);
      QuantityOfUpdate(lines, i, line, p);
      QuantityOfUpdate(lines, i, line, other);
    case None =>
      var tail := [CartLine(Some(p), DefaultQuantity)];
      QuantityOfAppend(lines, tail, p);
      QuantityOfAppend(lines, tail, other);
      assert tail[1..] == [];
  }

  /** The reply's total is the old total plus the product's price. */
  lemma AddRaisesTotalByPrice(lines: seq<CartLine>, p: ProductId, catalog: Catalog)
    requires p in catalog
    ensures Total(AddLine(lines, p), catalog) == Total(lines, catalog) + catalog[p].price
  {
    match FindLine(lines, p)
    case Some(i) =>
      TotalUpdate(lines, i, lines[i].(quantity := lines[i].quantity + 1), catalog);
    case None =>
      var tail := [CartLine(Some(p), DefaultQuantity)];
      TotalAppend(lines, tail, catalog);
      assert tail[1..] == [];
  }

  /** Adding the same product twice to an empty cart gives one line of quantity two. */
  lemma AddTwiceMakesOneLineOfTwo(p: ProductId)
    ensures AddLine(AddLine([], p), p) == [CartLine(Some(p), 2)]
  {
    assert AddLine([], p) == [CartLine(Some(p), 1)];
    assert FindLine([CartLine(Some(p), 1)], p) == Some(0);
  }

  // ---------------------------------------------------------------------------
  // Remove from cart

  /** Remove takes out the whole line, not one unit: afterwards p is absent, and
      exactly that one line is gone while every other line is kept as it was. */
  lemma RemoveDeletesWholeLine(lines: seq<CartLine>, p: ProductId)
    requires NoDuplicateProducts(lines)
    ensures forall j :: 0 <= j < |RemoveLine(lines, p)| ==> RemoveLine(lines, p)[j].product != Some(p)
    ensures QuantityOf(RemoveLine(lines, p), p) == 0
    ensures FindLine(lines, p).Some? ==> |RemoveLine(lines, p)| == |lines| - 1
    ensures FindLine(lines, p).Some? ==>
      multiset(RemoveLine(lines, p)) + multiset{lines[FindLine(lines, p).value]} == multiset(lines)
    ensures FindLine(lines, p).None? ==> RemoveLine(lines, p) == lines
  {
    var r := RemoveLine(lines, p);
    match FindLine(lines, p)
    case Some(i) =>
      forall j | 0 <= j < |r| ensures r[j].product != Some(p) {
        if j < i {
          assert r[j] == lines[j];
        } else {
          assert r[j] == lines[j + 1];
        }
      }
      QuantityOfAbsent(r, p);
      assert lines == lines[..i] + [lines[i]] + lines[i + 1..];
    case None =>
      QuantityOfAbsent(r, p);
  }

  /** Other products' counts are untouched by removing p. */
  lemma RemoveKeepsOtherCounts(lines: seq<CartLine>, p: ProductId, other: ProductId)
    requires other != p
    ensures QuantityOf(RemoveLine(lines, p), other) == QuantityOf(lines, other)
  {
    match FindLine(lines, p)
    case Some(i) =>
      assert lines == lines[..i] + [lines[i]] + lines[i + 1..];
      QuantityOfAppend(lines[..i] + [lines[i]], lines[i + 1..], other);
      QuantityOfAppend(lines[..i], [lines[i]], other);
      QuantityOfAppend(lines[..i], lines[i + 1..], other);
      assert [lines[i]][1..] == [];
    case None =>
  }

  /** Removing twice is the same as removing once. */
  lemma RemoveIsIdempotent(lines: seq<CartLine>, p: ProductId)
    requires NoDuplicateProducts(lines)
    ensures RemoveLine(RemoveLine(lines, p), p) == RemoveLine(lines, p)
  {
    RemoveDeletesWholeLine(lines, p);
  }

  lemma RemoveKeepsOneLinePerProduct(lines: seq<CartLine>, p: ProductId)
    requires NoDuplicateProducts(lines)
    ensures NoDuplicateProducts(RemoveLine(lines, p))
  {
    match FindLine(lines, p)
    case Some(i) =>
      var r := RemoveLine(lines, p);
      forall a, b | 0 <= a < b < |r| && r[a].product.Some? ensures r[a].product != r[b].product {
        var a' := if a < i then a else a + 1;
        var b' := if b < i then b else b + 1;
        assert r[a] == lines[a'] && r[b] == lines[b'];
      }
    case None =>
  }

  /** The reply's total drops by exactly the removed line's share. */
  lemma RemoveLowersTotalByLine(lines: seq<CartLine>, p: ProductId, catalog: Catalog)
    ensures FindLine(lines, p).Some? ==>
      Total(RemoveLine(lines, p), catalog) + LineTotal(lines[FindLine(lines, p).value], catalog)
        == Total(lines, catalog)
    ensures FindLine(lines, p).None? ==> Total(RemoveLine(lines, p), catalog) == Total(lines, catalog)
  {
    match FindLine(lines, p)
    case Some(i) => TotalRemove(lines, i, catalog);
    case None =>
  }

  // ---------------------------------------------------------------------------
  // Set quantity

  /** The product's count becomes exactly q when it has a line, other counts stay. */
  lemma SetQuantitySetsCount(lines: seq<CartLine>, p: ProductId, q: nat, other: ProductId)
    requires NoDuplicateProducts(lines) && other != p
    ensures FindLine(lines, p).Some? ==> QuantityOf(SetLineQuantity(lines, p, q), p) == q
    ensures FindLine(lines, p).None? ==> SetLineQuantity(lines, p, q) == lines
    ensures QuantityOf(SetLineQuantity(lines, p, q), other) == QuantityOf(lines, other)
  {
    match FindLine(lines, p)
    case Some(i) =>
      var line := lines[i].(quantity := q);
      QuantityOfUpdate(lines, i, line, p);
      QuantityOfUpdate(lines, i, line, other);
      QuantityOfFoundLine(lines, p, i);
    case None =>
  }

  lemma SetQuantityKeepsOneLinePerProduct(lines: seq<CartLine>, p: ProductId, q: nat)
    requires NoDuplicateProducts(lines)
    ensures NoDuplicateProducts(SetLineQuantity(lines, p, q))
    ensures |SetLineQuantity(lines, p, q)| == |lines|
  {
  }

  // ---------------------------------------------------------------------------
  // The views

  /** BookingCreateView.post */
  method BookingCreate(db: Store, user: UserId, productId: Option<ProductId>) returns (resp: JsonResponse)
    requires db.Valid()
    modifies db`carts
    ensures db.Valid()
    ensures productId.None? ==> resp == Failure(400) && db.carts == old(db.carts)
    ensures productId.Some? && productId.value !in db.catalog ==>
      resp == Failure(404) && db.carts == old(db.carts)
    ensures productId.Some? && productId.value in db.catalog ==>
      && db.carts == old(db.carts)[user := AddLine(CartOf(old(db.carts), user), productId.value)]
      && resp == Added(Total(db.carts[user], db.catalog))
  {
    if productId.None? {
      return Failure(400);
    }
    var p := productId.value;
    if p !in db.catalog {
      return Failure(404);
    }
    if user !in db.carts {
      db.carts := db.carts[user := []];
    }
    var lines := db.carts[user];
    var found := FindLine(lines, p);
    match found {
      case Some(i) =>
        lines := lines[i := lines[i].(quantity := lines[i].quantity + 1)];
      case None =>
        lines := lines + [CartLine(Some(p), DefaultQuantity)];
    }
    AddKeepsOneLinePerProduct(db.carts[user], p);
    db.carts := db.carts[user := lines];
    resp := Added(Total(lines, db.catalog));
  }

  /** BookingDeleteView.post */
  method BookingDelete(db: Store, user: UserId, productId: Option<ProductId>) returns (resp: JsonResponse)
    requires db.Valid()
    modifies db`carts
    ensures db.Valid()
    ensures productId.None? ==> resp == Failure(400) && db.carts == old(db.carts)
    ensures productId.Some? && user !in old(db.carts) ==> resp == Failure(404) && db.carts == old(db.carts)
    ensures productId.Some? && user in old(db.carts) ==>
      && db.carts == old(db.carts)[user := RemoveLine(old(db.carts)[user], productId.value)]
      && resp == Removed(Total(db.carts[user], db.catalog), productId.value)
  {
    if productId.None? {
      return Failure(400);
    }
    if user !in db.carts {
      return Failure(404);
    }
    var p := productId.value;
    var lines := db.carts[user];
    var found := FindLine(lines, p);
    if found.Some? {
      var i := found.value;
      lines := lines[..i] + lines[i + 1..];
    }
    RemoveKeepsOneLinePerProduct(db.carts[user], p);
    db.carts := db.carts[user := lines];
    resp := Removed(Total(lines, db.catalog), p);
  }

  /** BookingUpdateQuantityView.post: every failure path redirects without a change. */
  method BookingUpdateQuantity(db: Store, user: UserId, productId: Option<ProductId>, quantity: QuantityParam)
    requires db.Valid()
    modifies db`carts
    ensures db.Valid()
    ensures productId.Some? && quantity.IntValue? && user in old(db.carts) ==>
      db.carts == old(db.carts)[user := SetLineQuantity(old(db.carts)[user], productId.value, ClampQuantity(quantity.v))]
    ensures !(productId.Some? && quantity.IntValue? && user in old(db.carts)) ==> db.carts == old(db.carts)
  {
    if productId.None? || quantity.QuantityMissing? {
      return;
    }
    if quantity.NotAnInteger? {
      return;
    }
    var q := ClampQuantity(quantity.v);
    if user !in db.carts {
      return;
    }
    var p := productId.value;
    var lines := db.carts[user];
    var found := FindLine(lines, p);
    if found.Some? {
      var i := found.value;
      lines := lines[i := lines[i].(quantity := q)];
    }
    SetQuantityKeepsOneLinePerProduct(db.carts[user], p, q);
    db.carts := db.carts[user := lines];
  }

  /** BookingClearView.post: the user's cart loses every line; other carts are untouched. */
  method BookingClear(db: Store, user: UserId)
    requires db.Valid()
    modifies db`carts
    ensures db.Valid()
    ensures user in old(db.carts) ==> db.carts == old(db.carts)[user := []]
    ensures user !in old(db.carts) ==> db.carts == old(db.carts)
    ensures forall u :: u in db.carts && u != user ==> u in old(db.carts) && db.carts[u] == old(db.carts)[u]
  {
    if user in db.carts {
      db.carts := db.carts[user := []];
    }
  }
}
