// The two small product helpers in myapp/views.py: pluralize_reviews, which picks
// the Ukrainian form of "review" for a count, and ProductFavoriteView.post, which
// toggles the caller's favourite mark on a product.

module ProductViews {
  import opened Text
  import opened Models

  const Singular: string := "відгук"          // 1, 21, 31, ... but not 11
  const Paucal: string := "відгуки"           // 2-4, 22-24, ... but not 12-14
  const GenitivePlural: string := "відгуків"  // everything else

  /** The noun pluralize_reviews puts after the count. */
  function ReviewWord(count: nat): (w: string)
    ensures w == Singular || w == Paucal || w == GenitivePlural
  {
    if count % 10 == 1 && count % 100 != 11 then Singular
    else if 2 <= count % 10 <= 4 && (count % 100 < 10 || count % 100 >= 20) then Paucal
    else GenitivePlural
  }

  /** pluralize_reviews: the count in decimal, a space, then the noun. */
  function PluralizeReviews(count: nat): (s: string)
    ensures |s| == |Digits(count)| + 1 + |ReviewWord(count)|
    ensures s[..|Digits(count)|] == Digits(count)
    ensures s[|Digits(count)|] == ' '
    ensures s[|Digits(count)| + 1..] == ReviewWord(count)
  {
    Digits(count) + " " + ReviewWord(count)
  }

  /** The last digit of a number is the last digit of its last two digits. */
  lemma LastDigitOfLastTwo(n: nat)
    ensures n % 10 == (n % 100) % 10
  {
    var hundreds := n / 100;
    var lastTwo := n % 100;
    var tens := lastTwo / 10;
    var units := lastTwo % 10;
    assert lastTwo == 10 * tens + units;
    assert n == 10 * (10 * hundreds + tens) + units;
    assert n / 10 == 10 * hundreds + tens;
  }

  /** Counts 11 to 19 (modulo 100) always take the genitive plural. */
  lemma TeensTakeGenitivePlural(count: nat)
    requires 10 <= count % 100 <= 19
    ensures ReviewWord(count) == GenitivePlural
  {
    LastDigitOfLastTwo(count);
  }

  /** Outside the teens the last digit alone decides the form. */
  lemma LastDigitDecides(count: nat)
    requires !(10 <= count % 100 <= 19)
    ensures ReviewWord(count) == ReviewWord(count % 10)
  {
    LastDigitOfLastTwo(count);
    var d := count % 10;
    assert d % 10 == d && d % 100 == d;
  }

  /** The form repeats every hundred. */
  lemma FormRepeatsEveryHundred(count: nat)
    ensures ReviewWord(count + 100) == ReviewWord(count)
  {
    assert count + 100 == 100 * (count / 100 + 1) + count % 100;
    assert (count + 100) % 100 == count % 100;
    LastDigitOfLastTwo(count);
    LastDigitOfLastTwo(count + 100);
  }

  /** The count can be read back from the text: different counts give different texts. */
  lemma PluralizeReviewsInjective(a: nat, b: nat)
    requires PluralizeReviews(a) == PluralizeReviews(b)
    ensures a == b
  {
    DigitRunSplit(Digits(a), ReviewWord(a), Digits(b), ReviewWord(b), ' ');
    DigitsInjective(a, b);
  }

  // ---------------------------------------------------------------------------
  // ProductFavoriteView.post

  /** The favourites relation after the toggle: the caller's mark on that
      product flips, every other (product, user) pair stays as it was. */
  function Toggle(favorites: set<(ProductId, UserId)>, p: ProductId, u: UserId): (r: set<(ProductId, UserId)>)
    ensures (p, u) in r <==> (p, u) !in favorites
    ensures forall e :: e != (p, u) ==> (e in r <==> e in favorites)
  {
    if (p, u) in favorites then favorites - {(p, u)} else favorites + {(p, u)}
  }

  /** Pressing the button twice leaves the favourites as they were. */
  lemma ToggleTwiceRestores(favorites: set<(ProductId, UserId)>, p: ProductId, u: UserId)
    ensures Toggle(Toggle(favorites, p, u), p, u) == favorites
  {
  }

  datatype FavoriteOutcome = ProductNotFound | RedirectBack

  method ToggleFavorite(db: Store, user: UserId, productId: ProductId) returns (outcome: FavoriteOutcome)
    requires db.Valid()
    modifies db`favorites
    ensures db.Valid()
    ensures productId !in db.catalog ==> outcome == ProductNotFound && db.favorites == old(db.favorites)
    ensures productId in db.catalog ==>
      outcome == RedirectBack && db.favorites == Toggle(old(db.favorites), productId, user)
  {
    if productId !in db.catalog {
      return ProductNotFound;
    }
    if (productId, user) in db.favorites {
      db.favorites := db.favorites - {(productId, user)};
    } else {
      db.favorites := db.favorites + {(productId, user)};
    }
    outcome := RedirectBack;
  }
}
