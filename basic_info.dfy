/** BasicInfoExtractor.extract (scraper/src/extractors/basic_info.py): the
    name and detail URL a search card must have, the optional location,
    description, stars and price, and the rating with its review count. */
module BasicInfo {
  import opened Wrappers
  import opened PyStr
  import opened Dom

  const HOTEL_NAME := "a.FLpo-big-name"
  const HOTEL_LOCATION := "div.upS4-big-name"
  const HOTEL_DESCRIPTION := "div.b40a-desc-text"
  const HOTEL_STARS := "span.Ius0"
  const PRICE_AMOUNT := "div.c1XBO"
  const HOTEL_RATING := "div.wdjx-positive"
  const HOTEL_REVIEWS := "div.xdhG-rating-description-and-count"
  /** The XPath of the parent element, a lookup key like any selector. */
  const PARENT := "./.."

  /** The `hotel_info` dict. The four optional keys are always assigned once
      a card gets that far (a found element is truthy); the rating keys may
      be absent. */
  datatype BasicInfo = BasicInfo(
    name: string,
    detailUrl: Option<string>,
    location: Option<string>,
    description: Option<string>,
    stars: Option<string>,
    price: Option<string>,
    rating: Key<string>,
    reviews: Key<string>,
    reviewCount: Key<string>)

  /** The rating keys. */
  datatype Ratings = Ratings(rating: Key<string>, reviews: Key<string>, reviewCount: Key<string>)

  const NoRatings := Ratings(Absent, Absent, Absent)

  /** An optional field: the stripped text when found, None when the lookup
      raises NoSuchElement; a stale lookup escapes to the outer handler. */
  function Field(card: Item, sel: string): (r: Outcome<Option<string>>)
    ensures Probe(card, sel).Found? ==> r == Ok(Some(Strip(Probe(card, sel).elem.text)))
    ensures Probe(card, sel).Missing? ==> r == Ok(None)
    ensures Probe(card, sel).Stale? ==> r.Raise?
  {
    match FindElement(card, sel)
    case Ok(e) => Ok(Some(Strip(e.text)))
    case Raise(NoSuchElement) => Ok(None)
    case Raise(e) => Raise(e)
  }

  /** The description, looked up beneath the card's parent. */
  function Description(card: Item): Outcome<Option<string>> {
    match FindElement(card, PARENT)
    case Ok(parent) => Field(Live(parent), HOTEL_DESCRIPTION)
    case Raise(NoSuchElement) => Ok(None)
    case Raise(e) => Raise(e)
  }

  /** The first token of the stripped stars text, or None when it is empty. */
  function Stars(text: string): (r: Option<string>)
    requires text == Strip(text)
    ensures r.None? <==> text == ""
    ensures r.Some? ==> Split(text) != [] && r.value == Split(text)[0]
  {
    if text != "" then
      SplitAllSpace(text);
      assert !IsSpace(text[0]);
      Some(Split(text)[0])
    else None
  }

  function StarsField(card: Item): Outcome<Option<string>> {
    match Field(card, HOTEL_STARS)
    case Raise(e) => Raise(e)
    case Ok(None) => Ok(None)
    case Ok(Some(t)) => StripIdempotent(t); Ok(Stars(t))
  }

  /** `reviews_text.split('(')[1].split(')')[0]`. */
  function ReviewCount(t: string): string
    requires '(' in t
  {
    SplitOnSecond(t, '(');
    SplitOn(SplitOn(t, '(')[1], ')')[0]
  }

  /** The rating keys: both elements are looked up before either key is
      assigned, so a missing one leaves all three keys absent. */
  function RatingsOf(card: Item): Outcome<Ratings> {
    match FindElement(card, HOTEL_RATING)
    case Raise(NoSuchElement) => Ok(NoRatings)
    case Raise(e) => Raise(e)
    case Ok(ratingElem) =>
      match FindElement(card, HOTEL_REVIEWS)
      case Raise(NoSuchElement) => Ok(NoRatings)
      case Raise(e) => Raise(e)
      case Ok(reviewsElem) =>
        var t := Strip(reviewsElem.text);
        Ok(Ratings(Set(Strip(ratingElem.text)), Set(t),
                   if '(' in t && ')' in t then Set(ReviewCount(t)) else Absent))
  }

  /** The four optional keys, in the order they are looked up. */
  datatype Optional = Optional(
    location: Option<string>,
    description: Option<string>,
    stars: Option<string>,
    price: Option<string>)

  /** The four optional `try` blocks: the first stale lookup ends them. */
  function OptionalOf(card: Item): Outcome<Optional> {
    match Field(card, HOTEL_LOCATION)
    case Raise(e) => Raise(e)
    case Ok(location) =>
      match Description(card)
      case Raise(e) => Raise(e)
      case Ok(description) =>
        match StarsField(card)
        case Raise(e) => Raise(e)
        case Ok(stars) =>
          match Field(card, PRICE_AMOUNT)
          case Raise(e) => Raise(e)
          case Ok(price) => Ok(Optional(location, description, stars, price))
  }

  /** BasicInfoExtractor.extract: None without a name anchor, and None when
      any lookup meets a stale element. */
  function BasicInfoOf(card: Item): Option<BasicInfo> {
    match FindElement(card, HOTEL_NAME)
    case Raise(_) => None
    case Ok(nameElem) =>
      match OptionalOf(card)
      case Raise(_) => None
      case Ok(o) =>
        match RatingsOf(card)
        case Raise(_) => None
        case Ok(rt) =>
          Some(BasicInfo(Strip(nameElem.text), Attr(nameElem, "href"), o.location, o.description,
                         o.stars, o.price, rt.rating, rt.reviews, rt.reviewCount))
  }

  /** The four optional `try` blocks, each assigning its key. */
  method ExtractOptional(card: Item) returns (r: Outcome<Optional>)
    ensures r == OptionalOf(card)
  {
    var o := Optional(None, None, None, None);
    var location := Field(card, HOTEL_LOCATION);
    if location.Raise? {
      return Raise(location.exc);
    }
    o := o.(location := location.value);
    var description := Description(card);
    if description.Raise? {
      return Raise(description.exc);
    }
    o := o.(description := description.value);
    var stars := StarsField(card);
    if stars.Raise? {
      return Raise(stars.exc);
    }
    o := o.(stars := stars.value);
    var price := Field(card, PRICE_AMOUNT);
    if price.Raise? {
      return Raise(price.exc);
    }
    o := o.(price := price.value);
    return Ok(o);
  }

  /** The rating `try` block: both lookups first, then the assignments. */
  method ExtractRatings(card: Item) returns (r: Outcome<Ratings>)
    ensures r == RatingsOf(card)
  {
    var ratingElem := FindElement(card, HOTEL_RATING);
    if ratingElem == Raise(NoSuchElement) {
      return Ok(NoRatings);
    } else if ratingElem.Raise? {
      return Raise(ratingElem.exc);
    }
    var reviewsElem := FindElement(card, HOTEL_REVIEWS);
    if reviewsElem == Raise(NoSuchElement) {
      return Ok(NoRatings);
    } else if reviewsElem.Raise? {
      return Raise(reviewsElem.exc);
    }
    var rt := NoRatings.(rating := Set(Strip(ratingElem.value.text)));
    var reviewsText := Strip(reviewsElem.value.text);
    rt := rt.(reviews := Set(reviewsText));
    if '(' in reviewsText && ')' in reviewsText {
      rt := rt.(reviewCount := Set(ReviewCount(reviewsText)));
    }
    return Ok(rt);
  }

  /** BasicInfoExtractor.extract, with its early returns. */
  method ExtractBasicInfo(card: Item) returns (r: Option<BasicInfo>)
    ensures r == BasicInfoOf(card)
  {
    var nameElem := FindElement(card, HOTEL_NAME);
    if nameElem.Raise? {
      return None;
    }
    var o := ExtractOptional(card);
    if o.Raise? {
      return None;
    }
    var rt := ExtractRatings(card);
    if rt.Raise? {
      return None;
    }
    var n := nameElem.value;
    r := Some(BasicInfo(Strip(n.text), Attr(n, "href"), o.value.location, o.value.description,
                        o.value.stars, o.value.price, rt.value.rating, rt.value.reviews,
                        rt.value.reviewCount));
  }

  // ------------------------------------------------------------ properties

  /** Some optional lookup of the card meets a stale element. */
  predicate StaleOptional(card: Item) {
    || Probe(card, HOTEL_LOCATION).Stale?
    || Probe(card, PARENT).Stale?
    || (Probe(card, PARENT).Found? && Probe(Live(Probe(card, PARENT).elem), HOTEL_DESCRIPTION).Stale?)
    || Probe(card, HOTEL_STARS).Stale?
    || Probe(card, PRICE_AMOUNT).Stale?
  }

  /** A rating lookup meets a stale element (the reviews lookup is made only
      after the rating element was found). */
  predicate StaleRatings(card: Item) {
    || Probe(card, HOTEL_RATING).Stale?
    || (Probe(card, HOTEL_RATING).Found? && Probe(card, HOTEL_REVIEWS).Stale?)
  }

  lemma OptionalRaise(card: Item)
    ensures OptionalOf(card).Raise? <==> StaleOptional(card)
  {
    if Probe(card, PARENT).Found? {
      assert Description(card) == Field(Live(Probe(card, PARENT).elem), HOTEL_DESCRIPTION);
    }
  }

  lemma RatingsRaise(card: Item)
    ensures RatingsOf(card).Raise? <==> StaleRatings(card)
  {
  }

  /** A card yields a record exactly when its name anchor is found and no
      later lookup meets a stale element; a missing name means None. */
  lemma NameRequired(card: Item)
    ensures BasicInfoOf(card).Some? <==>
      Probe(card, HOTEL_NAME).Found? && !StaleOptional(card) && !StaleRatings(card)
  {
    OptionalRaise(card);
    RatingsRaise(card);
  }

  /** Name and detail URL come together from the name anchor: its stripped
      text and its href. */
  lemma NameAndUrl(card: Item)
    requires BasicInfoOf(card).Some?
    ensures var a := Probe(card, HOTEL_NAME).elem;
      BasicInfoOf(card).value.name == Strip(a.text) &&
      BasicInfoOf(card).value.detailUrl == Attr(a, "href")
  {
  }

  /** A missing location, description, stars or price element sets that key
      to None and the extraction goes on. */
  lemma MissingOptional(card: Item)
    requires BasicInfoOf(card).Some?
    ensures Probe(card, HOTEL_LOCATION).Missing? ==> BasicInfoOf(card).value.location == None
    ensures Probe(card, PARENT).Missing? ==> BasicInfoOf(card).value.description == None
    ensures Probe(card, HOTEL_STARS).Missing? ==> BasicInfoOf(card).value.stars == None
    ensures Probe(card, PRICE_AMOUNT).Missing? ==> BasicInfoOf(card).value.price == None
    ensures Probe(card, HOTEL_LOCATION).Found? ==>
      BasicInfoOf(card).value.location == Some(Strip(Probe(card, HOTEL_LOCATION).elem.text))
    ensures Probe(card, PRICE_AMOUNT).Found? ==>
      BasicInfoOf(card).value.price == Some(Strip(Probe(card, PRICE_AMOUNT).elem.text))
  {
    BasicInfoParts(card);
    OptionalFields(card);
  }

  /** A record carries the four optional keys that the optional blocks read. */
  lemma BasicInfoParts(card: Item)
    requires BasicInfoOf(card).Some?
    ensures OptionalOf(card).Ok?
    ensures BasicInfoOf(card).value.location == OptionalOf(card).value.location
    ensures BasicInfoOf(card).value.description == OptionalOf(card).value.description
    ensures BasicInfoOf(card).value.stars == OptionalOf(card).value.stars
    ensures BasicInfoOf(card).value.price == OptionalOf(card).value.price
  {
  }

  /** Each optional key is what its own lookup gave. */
  lemma OptionalFields(card: Item)
    requires OptionalOf(card).Ok?
    ensures Field(card, HOTEL_LOCATION) == Ok(OptionalOf(card).value.location)
    ensures Description(card) == Ok(OptionalOf(card).value.description)
    ensures StarsField(card) == Ok(OptionalOf(card).value.stars)
    ensures Field(card, PRICE_AMOUNT) == Ok(OptionalOf(card).value.price)
  {
  }

  /** Stars is the first token of the stripped text, None when it is empty
      (the meaning of `Stars` is its contract). */
  lemma StarsToken(card: Item)
    requires BasicInfoOf(card).Some? && Probe(card, HOTEL_STARS).Found?
    ensures BasicInfoOf(card).value.stars == Stars(Strip(Probe(card, HOTEL_STARS).elem.text))
  {
    var raw := Probe(card, HOTEL_STARS).elem.text;
    StripIdempotent(raw);
    BasicInfoParts(card);
    OptionalFields(card);
    assert Field(card, HOTEL_STARS) == Ok(Some(Strip(raw)));
    assert StarsField(card) == Ok(Stars(Strip(raw)));
  }

  /** The three rating keys are set only when both elements were found;
      rating and reviews are then both set, and the count only when the
      reviews text holds both parentheses. */
  lemma RatingsTogether(card: Item)
    requires BasicInfoOf(card).Some?
    ensures var r := BasicInfoOf(card).value;
      && (r.rating.Set? <==> r.reviews.Set?)
      && (r.rating.Set? <==> Probe(card, HOTEL_RATING).Found? && Probe(card, HOTEL_REVIEWS).Found?)
      && (r.reviewCount.Set? <==> r.reviews.Set? && '(' in r.reviews.value && ')' in r.reviews.value)
      && (r.reviewCount.Set? ==> r.reviewCount.value == ReviewCount(r.reviews.value))
  {
  }

  /** The part of `rest` before its first '(' and then before its first ')'
      is the part before whichever of the two comes first. */
  lemma CountPiece(rest: string)
    ensures var a := IndexOf(rest, '(', 0); var piece := rest[..a];
      var c := SplitOn(piece, ')')[0];
      && |c| <= |rest| && rest[..|c|] == c
      && '(' !in c && ')' !in c
      && (|c| == |rest| || rest[|c|] == '(' || rest[|c|] == ')')
  {
    var a := IndexOf(rest, '(', 0);
    var piece := rest[..a];
    assert rest[0..a] == piece;
    SplitOnFirst(piece, ')');
    var b := IndexOf(piece, ')', 0);
    var c := piece[..b];
    assert piece[0..b] == c;
    assert rest[..b] == c;
    assert '(' !in c by {
      forall i | 0 <= i < |c| ensures c[i] != '(' { assert c[i] == piece[i]; }
    }
    if b < |piece| {
      assert rest[b] == piece[b];
    }
  }

  /** The review count is the text right after the first '(' (at `k`, see
      FirstParen), up to the next '(' or ')' or the end of the text; it
      holds neither parenthesis. */
  lemma ReviewCountSpec(t: string)
    requires '(' in t
    ensures var k := IndexOf(t, '(', 0); var c := ReviewCount(t);
      && k + 1 + |c| <= |t| && t[k + 1..k + 1 + |c|] == c
      && '(' !in c && ')' !in c
      && (k + 1 + |c| == |t| || t[k + 1 + |c|] == '(' || t[k + 1 + |c|] == ')')
  {
    var k := IndexOf(t, '(', 0);
    var rest := t[k + 1..];
    ReviewCountRest(t);
    CountPiece(rest);
    SliceOfRest(t, k + 1, |ReviewCount(t)|);
  }

  /** `IndexOf` finds the first '(' of a text that has one. */
  lemma FirstParen(t: string)
    requires '(' in t
    ensures var k := IndexOf(t, '(', 0); k < |t| && t[k] == '(' && '(' !in t[..k]
  {
    var k := IndexOf(t, '(', 0);
    assert t[..k] == t[0..k];
  }

  /** A slice of `s[i..]` read as a slice of `s`. */
  lemma SliceOfRest(s: string, i: nat, n: nat)
    requires i + n <= |s|
    ensures s[i..i + n] == s[i..][..n]
    ensures i + n < |s| ==> s[i + n] == s[i..][n]
  {
  }

  /** The count is read from the text after the first '(' alone. */
  lemma ReviewCountRest(t: string)
    requires '(' in t
    ensures var k := IndexOf(t, '(', 0); var rest := t[k + 1..];
      k < |t| && ReviewCount(t) == SplitOn(rest[..IndexOf(rest, '(', 0)], ')')[0]
  {
    SplitOnSecond(t, '(');
  }

  /** "Very good (12185)": a prefix without '(' followed by the number in
      parentheses gives the number. */
  lemma ReviewCountExample(t: string, prefix: string, n: string)
    requires '(' !in prefix && IsDigits(n) && t == prefix + "(" + n + ")"
    ensures ReviewCount(t) == n
  {
    assert t[|prefix|] == '(';
    IndexOfFirst(t, prefix, '(', 0);
    assert t[..|prefix|] == prefix;
    var rest := t[|prefix| + 1..];
    assert rest == n + ")";
    assert '(' !in rest by {
      forall i | 0 <= i < |rest| ensures rest[i] != '(' {
        if i < |n| { assert rest[i] == n[i] && IsDigit(n[i]); }
      }
    }
    IndexOfAbsent(rest, '(', 0);
    SplitOnSecond(t, '(');
    assert rest[..|rest|] == rest;
    assert ')' !in n by {
      forall i | 0 <= i < |n| ensures n[i] != ')' { assert IsDigit(n[i]); }
    }
    assert rest[..|n|] == n;
    IndexOfFirst(rest, n, ')', 0);
    SplitOnFirst(rest, ')');
  }
}
