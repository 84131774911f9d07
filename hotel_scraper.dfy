/** KayakHotelScraper of scraper/src/hotel_scraper.py, the older single-file
    scraper: a search page loaded once and scrolled until its height stops
    changing, the basic information of each result card read in turn, and
    each card with a link followed to its detail page at once. Its helpers
    for policies, bed information, amenities and prices do what the
    extractor modules do; lemmas and method contracts here say so. */
module HotelScraper {
  import opened Wrappers
  import opened PyStr
  import opened Seqs
  import opened Dom
  import opened Retry
  import opened Browser
  import Kayak
  import Amenities
  import Policies
  import Room
  import Price

  const BASE_URL := "https://www.kayak.com"
  const HOTEL_CARD := "div[class*=\"yuAt yuAt-pres-rounded\"]"
  /** find_element_with_retry sleeps one second after a stale attempt. */
  const STALE_DELAY: nat := 1
  /** The scroll loop of get_page stops after this many scrolls. */
  const MAX_SCROLLS: nat := 3
  /** `max_retries` of refresh_and_retry. */
  const REFRESH_RETRIES: int := 3

  const NAME := "a.FLpo-big-name"
  const LOCATION := ".upS4-big-name"
  const PRICE_MAIN := ".zV27-price-section .c1XBO"
  const PRICE_FALLBACK := ".Ptt7-price"
  const RATING := ".wdjx"
  const REVIEWS := ".xdhG-rating-description-and-count"

  const DESCRIPTION := ".b40a-desc-text, .b40a-desc-wrap--full"
  const ADDRESS := ".c3xth-address"

  const ROOM_CARD := ".c5l3f"
  const ROOM_TYPE := ".c5NJT div"
  const ROOM_PRICE := ".D9i2-price .C9NJ-amount"
  const PROVIDER := ".c2pAq-logo"
  const FREEBIE := ".BZag-freebie"

  const MAIN_PRICE := ".D9i2-price, .c1XBO"

  // ---------------------------------------------------------------- search URL

  /** construct_search_url: the city is not used; the location segment is
      always Errachidia's. */
  function SearchUrl(checkIn: string, checkOut: string): string {
    BASE_URL + "/hotels/errachidia-c52508/" + checkIn + "/" + checkOut + "/2adults?sort=rank_a"
  }

  /** The legacy URL is the one the newer scraper builds for the city
      "errachidia", whatever city the scraper was given. */
  lemma SearchUrlIsErrachidia(checkIn: string, checkOut: string)
    ensures SearchUrl(checkIn, checkOut) == Kayak.SearchUrl(Kayak.BASE_URL, "errachidia", checkIn, checkOut)
  {
    ReplaceCharAbsent("errachidia", ' ', '-');
    LegacyPrefix();
  }

  /** The fixed part of the legacy URL before the dates. */
  lemma LegacyPrefix()
    ensures BASE_URL + "/hotels/errachidia-c52508/" == Kayak.BASE_URL + "/" + "errachidia" + "-c52508/"
  {
  }

  // ------------------------------------------------------------ safe lookups

  /** get_text_safe: the stripped text of the element found, None when it is
      missing or the lookup raised. */
  function GetTextSafe(it: Item, sel: string): (r: Option<string>)
    ensures r.Some? <==> Probe(it, sel).Found?
    ensures r.Some? ==> r.value == Strip(Probe(it, sel).elem.text)
  {
    match FindRetry(it, sel)
    case Ok(Some(e)) => Some(Strip(e.text))
    case _ => None
  }

  /** get_attribute_safe: the attribute of the element found, None when the
      element or the attribute is missing or the lookup raised. */
  function GetAttributeSafe(it: Item, sel: string, name: string): (r: Option<string>)
    ensures r.Some? <==> Probe(it, sel).Found? && name in Probe(it, sel).elem.attrs
    ensures r.Some? ==> r.value == Probe(it, sel).elem.attrs[name]
  {
    match FindRetry(it, sel)
    case Ok(Some(e)) => Attr(e, name)
    case _ => None
  }

  // --------------------------------------------------------------- scrolling

  /** Scrolls get_page makes once `k` scrolls have each changed the height:
      it stops at the first unchanged height or after MAX_SCROLLS scrolls.
      `h(r0 + k)` is the height read after `k` scrolls. */
  function ScrollsFrom(h: nat -> nat, r0: nat, k: nat): nat
    decreases if k < MAX_SCROLLS then MAX_SCROLLS - k else 0
  {
    if k >= MAX_SCROLLS then k
    else if h(r0 + k + 1) == h(r0 + k) then k + 1
    else ScrollsFrom(h, r0, k + 1)
  }

  function Scrolls(h: nat -> nat, r0: nat): nat { ScrollsFrom(h, r0, 0) }

  /** The `k`-th scroll changed the page height. */
  predicate Grew(h: nat -> nat, r0: nat, k: nat)
    requires k >= 1
  {
    h(r0 + k) != h(r0 + k - 1)
  }

  lemma {:induction false} ScrollsFromSpec(h: nat -> nat, r0: nat, k: nat)
    requires k <= MAX_SCROLLS
    ensures var s := ScrollsFrom(h, r0, k);
      && k <= s <= MAX_SCROLLS && (k < MAX_SCROLLS ==> k < s)
      && (forall j | k < j < s :: Grew(h, r0, j))
      && (s < MAX_SCROLLS ==> !Grew(h, r0, s))
    decreases MAX_SCROLLS - k
  {
    if k < MAX_SCROLLS && h(r0 + k + 1) != h(r0 + k) {
      ScrollsFromSpec(h, r0, k + 1);
    }
  }

  /** get_page scrolls at least once and at most three times; every scroll
      but the last changed the height, and it stopped early only because the
      height did not change. */
  lemma ScrollsSpec(h: nat -> nat, r0: nat)
    ensures 1 <= Scrolls(h, r0) <= MAX_SCROLLS
    ensures forall j | 1 <= j < Scrolls(h, r0) :: Grew(h, r0, j)
    ensures Scrolls(h, r0) < MAX_SCROLLS ==> !Grew(h, r0, Scrolls(h, r0))
  {
    ScrollsFromSpec(h, r0, 0);
  }

  /** The conditions of ScrollsSpec determine the number of scrolls. */
  lemma ScrollsIs(h: nat -> nat, r0: nat, s: nat)
    requires 1 <= s <= MAX_SCROLLS
    requires forall j | 1 <= j < s :: Grew(h, r0, j)
    requires s < MAX_SCROLLS ==> !Grew(h, r0, s)
    ensures Scrolls(h, r0) == s
  {
    ScrollsSpec(h, r0);
  }

  /** A scroll that changed the height extends the run of growing scrolls. */
  lemma GrewStep(h: nat -> nat, r0: nat, count: nat)
    requires forall j | 1 <= j <= count :: Grew(h, r0, j)
    requires h(r0 + count + 1) != h(r0 + count)
    ensures forall j | 1 <= j <= count + 1 :: Grew(h, r0, j)
  {
  }

  // ----------------------------------------------------------- the card dict

  /** The `hotel_info` dict: each key present or not. `detail_url` and
      `price` may hold None. */
  datatype CardInfo = CardInfo(
    name: Key<string>,
    detailUrl: Key<Option<string>>,
    location: Key<string>,
    price: Key<Option<string>>,
    rating: Key<string>,
    reviews: Key<string>)

  const NoInfo := CardInfo(Absent, Absent, Absent, Absent, Absent, Absent)

  /** The price key: the main price element or else the fallback one; a
      raise in either lookup stores None under the key. */
  function PriceKey(card: Item): Key<Option<string>> {
    match FindRetry(card, PRICE_MAIN)
    case Raise(_) => Set(None)
    case Ok(Some(e)) => Set(Some(Strip(e.text)))
    case Ok(None) =>
      match FindRetry(card, PRICE_FALLBACK)
      case Raise(_) => Set(None)
      case Ok(Some(e)) => Set(Some(Strip(e.text)))
      case Ok(None) => Absent
  }

  /** Both rating lookups run before either key is set, so a raise in
      either leaves both keys out. */
  function WithRatings(info: CardInfo, card: Item): (r: CardInfo)
    ensures r.name == info.name && r.detailUrl == info.detailUrl
    ensures r.location == info.location && r.price == info.price
  {
    match FindRetry(card, RATING)
    case Raise(_) => info
    case Ok(rating) =>
      match FindRetry(card, REVIEWS)
      case Raise(_) => info
      case Ok(reviews) =>
        var a := if rating.Some? then info.(rating := Set(Strip(rating.value.text))) else info;
        if reviews.Some? then a.(reviews := Set(Strip(reviews.value.text))) else a
  }

  /** extract_hotel_basic_info: None when the name or the location lookup
      raises; a missing name leaves both the name and the URL out. */
  function CardInfoOf(card: Item): Option<CardInfo> {
    match FindRetry(card, NAME)
    case Raise(_) => None
    case Ok(name) =>
      var named := if name.Some? then
          NoInfo.(name := Set(Strip(name.value.text)), detailUrl := Set(Attr(name.value, "href")))
        else NoInfo;
      match FindRetry(card, LOCATION)
      case Raise(_) => None
      case Ok(loc) =>
        var located := if loc.Some? then named.(location := Set(Strip(loc.value.text))) else named;
        Some(WithRatings(located.(price := PriceKey(card)), card))
  }

  /** `hotel_info and hotel_info.get('detail_url')`. */
  predicate KeptCard(info: Option<CardInfo>) {
    info.Some? && info.value.detailUrl.Set? && info.value.detailUrl.value.Some?
    && info.value.detailUrl.value.value != ""
  }

  /** The detail URL of a kept card. */
  function UrlOf(info: CardInfo): string {
    match info.detailUrl
    case Set(Some(u)) => u
    case _ => ""
  }

  lemma CardInfoNone(card: Item)
    ensures CardInfoOf(card).None? <==> Probe(card, NAME).Stale? || Probe(card, LOCATION).Stale?
  {
  }

  /** Unlike the newer extractor, a card without a name element still gives
      a dict; it holds neither a name nor a URL, so the scrape skips it. */
  lemma NamelessCard(card: Item)
    requires Probe(card, NAME).Missing? && !Probe(card, LOCATION).Stale?
    ensures CardInfoOf(card).Some?
    ensures CardInfoOf(card).value.name == Absent && CardInfoOf(card).value.detailUrl == Absent
    ensures !KeptCard(CardInfoOf(card))
  {
  }

  /** The price comes from the main element when there is one, else from the
      fallback; no key without either; None under the key after a raise. */
  lemma PriceFallback(card: Item)
    requires CardInfoOf(card).Some?
    ensures var p := CardInfoOf(card).value.price;
      && (Probe(card, PRICE_MAIN).Found? ==> p == Set(Some(Strip(Probe(card, PRICE_MAIN).elem.text))))
      && (Probe(card, PRICE_MAIN).Missing? && Probe(card, PRICE_FALLBACK).Found? ==>
            p == Set(Some(Strip(Probe(card, PRICE_FALLBACK).elem.text))))
      && (Probe(card, PRICE_MAIN).Missing? && Probe(card, PRICE_FALLBACK).Missing? ==> p == Absent)
      && (Probe(card, PRICE_MAIN).Stale? ==> p == Set(None))
  {
  }

  /** A stale rating or reviews element loses both keys; otherwise each is
      set exactly when its element is found. */
  lemma RatingsTogether(card: Item)
    requires CardInfoOf(card).Some?
    ensures var r := CardInfoOf(card).value;
      && (Probe(card, RATING).Stale? || Probe(card, REVIEWS).Stale? ==>
            r.rating == Absent && r.reviews == Absent)
      && (!Probe(card, RATING).Stale? && !Probe(card, REVIEWS).Stale? ==>
            (r.rating.Set? <==> Probe(card, RATING).Found?) &&
            (r.reviews.Set? <==> Probe(card, REVIEWS).Found?))
  {
  }

  // ------------------------------------------------------------ room records

  /** The `room_info` dict of extract_room_details. */
  datatype LegacyRoom = LegacyRoom(
    roomType: Option<string>,
    price: Option<string>,
    provider: Option<string>,
    cancellation: Option<string>,
    inclusions: seq<string>)

  const NoRoom := LegacyRoom(None, None, None, None, [])

  /** The one freebie element found goes to the cancellation when it
      mentions cancellation and is the only inclusion otherwise. */
  function WithFreebie(r: LegacyRoom, freebie: Option<Elem>): LegacyRoom {
    match freebie
    case None => r
    case Some(e) =>
      var t := Strip(e.text);
      if Contains(Lower(t), "cancellation") then r.(cancellation := Some(t))
      else r.(inclusions := r.inclusions + [t])
  }

  /** The `try` block for one room: any lookup that raises skips the room. */
  function RoomOf(room: Item): Outcome<LegacyRoom> {
    match RoomBaseOf(room)
    case Raise(x) => Raise(x)
    case Ok(base) =>
      match FindRetry(room, FREEBIE)
      case Raise(x) => Raise(x)
      case Ok(f) => Ok(WithFreebie(base, f))
  }

  /** The type, price and provider lookups of one room. */
  function RoomBaseOf(room: Item): (r: Outcome<LegacyRoom>)
    ensures r.Ok? ==> r.value.cancellation == None && r.value.inclusions == []
  {
    match FindRetry(room, ROOM_TYPE)
    case Raise(x) => Raise(x)
    case Ok(t) =>
      match FindRetry(room, ROOM_PRICE)
      case Raise(x) => Raise(x)
      case Ok(p) =>
        match FindRetry(room, PROVIDER)
        case Raise(x) => Raise(x)
        case Ok(v) => Ok(BaseRoom(t, p, v))
  }

  /** The dict once the type, price and provider lookups have run. */
  function BaseRoom(t: Option<Elem>, p: Option<Elem>, v: Option<Elem>): (r: LegacyRoom)
    ensures r.cancellation == None && r.inclusions == []
  {
    LegacyRoom(
      if t.Some? then Some(Strip(t.value.text)) else None,
      if p.Some? then Some(Strip(p.value.text)) else None,
      if v.Some? then Attr(v.value, "alt") else None,
      None, [])
  }

  predicate Truthy(o: Option<string>) { o.Some? && o.value != "" }

  /** `any(room_info.values())`: a non-empty inclusions list counts even when
      its one text is empty. */
  predicate Worth(r: LegacyRoom) {
    Truthy(r.roomType) || Truthy(r.price) || Truthy(r.provider) || Truthy(r.cancellation)
    || r.inclusions != []
  }

  function KeptRoom(room: Item): Option<LegacyRoom> {
    match RoomOf(room)
    case Ok(r) => if Worth(r) then Some(r) else None
    case Raise(_) => None
  }

  /** extract_room_details on the current page. */
  function RoomsOf(page: Elem): seq<LegacyRoom> {
    FilterMap(Children(Live(page), ROOM_CARD), KeptRoom)
  }

  /** A room record holds at most one freebie text: as the cancellation when
      it mentions cancellation, else as the only inclusion. */
  lemma RoomFreebie(room: Item)
    requires RoomOf(room).Ok?
    ensures var r := RoomOf(room).value;
      && |r.inclusions| <= 1
      && (r.cancellation.Some? ==> r.inclusions == [] && Contains(Lower(r.cancellation.value), "cancellation"))
      && (r.inclusions != [] ==> r.cancellation == None && !Contains(Lower(r.inclusions[0]), "cancellation"))
      && (r.cancellation.Some? || r.inclusions != [] <==> Probe(room, FREEBIE).Found?)
      && (Probe(room, FREEBIE).Found? ==>
            var t := Strip(Probe(room, FREEBIE).elem.text);
            r.cancellation == Some(t) || r.inclusions == [t])
  {
  }


  /** A room is skipped when a lookup raised or when nothing in its dict is
      truthy; a freebie with blank text is enough to keep it. */
  lemma BlankFreebieKept(room: Item)
    requires RoomOf(room).Ok? && Probe(room, FREEBIE).Found?
    requires AllSpace(Probe(room, FREEBIE).elem.text)
    ensures KeptRoom(room) == Some(RoomOf(room).value)
    ensures RoomOf(room).value.inclusions == [""]
  {
    var low := Lower("");
    assert !Contains(low, "cancellation");
  }

  /** Every kept room is worth keeping, and every room that raised is gone. */
  lemma KeptRoomSpec(room: Item)
    ensures KeptRoom(room).Some? <==> RoomOf(room).Ok? && Worth(RoomOf(room).value)
    ensures KeptRoom(room).Some? ==> KeptRoom(room).value == RoomOf(room).value
    ensures room.Detached? ==> KeptRoom(room).None?
  {
  }

  // ----------------------------------------------------------- detail record

  /** The `details` dict: two lists always, description and address when
      they were found. */
  datatype Details = Details(
    rooms: seq<LegacyRoom>,
    amenities: Amenities.Amenities,
    description: Key<string>,
    fullAddress: Key<string>)

  function TextKey(o: Option<Elem>): Key<string> {
    match o
    case Some(e) => Set(Strip(e.text))
    case None => Absent
  }

  /** extract_hotel_details once the page has loaded. */
  function DetailsOf(page: Elem): Details {
    Details(
      RoomsOf(page),
      Amenities.AmenitiesOf(Children(Live(page), Amenities.AMENITY_SELECTOR)),
      TextKey(WaitForElementQuiet(Live(page), DESCRIPTION)),
      TextKey(WaitForElementQuiet(Live(page), ADDRESS)))
  }

  /** `hotel_info.update(details)`: the two dicts share no key. */
  datatype Hotel = Hotel(info: CardInfo, details: Details)

  // ------------------------------------------------------------ card phase

  /** The dicts of the cards that pass the URL test, in card order. */
  function Listed(cards: seq<Item>): seq<CardInfo> {
    if cards == [] then []
    else Listed(cards[..|cards| - 1]) + Take(cards[|cards| - 1])
  }

  /** The dict of one card when it passes the URL test. */
  function Take(card: Item): (t: seq<CardInfo>)
    ensures |t| <= 1
    ensures t != [] <==> KeptCard(CardInfoOf(card))
    ensures t != [] ==> t[0] == CardInfoOf(card).value
  {
    var info := CardInfoOf(card);
    if KeptCard(info) then [info.value] else []
  }

  /** Navigation number `g + i` does not raise. */
  predicate Loads(site: Session, g: nat, i: nat) { !site.getFails(g + i) }

  /** The hotel a listed dict gives once its detail page has loaded. */
  function HotelFor(info: CardInfo, site: Session): Hotel {
    Hotel(info, DetailsOf(site.PageAt(UrlOf(info))))
  }

  lemma ListedSnoc(cards: seq<Item>, i: nat)
    requires i < |cards|
    ensures Listed(cards[..i + 1]) == Listed(cards[..i]) + Take(cards[i])
  {
    assert cards[..i + 1][..i] == cards[..i];
  }

  /** The listed dicts whose detail page loaded, when the `i`-th detail load
      is the navigation numbered `g + i`. */
  function Loaded(todo: seq<CardInfo>, g: nat, site: Session): seq<CardInfo> {
    if todo == [] then []
    else
      var n := |todo| - 1;
      Loaded(todo[..n], g, site) + (if Loads(site, g, n) then [todo[n]] else [])
  }

  /** The hotel of each dict, in order. */
  function HotelsOf(infos: seq<CardInfo>, site: Session): (r: seq<Hotel>)
    ensures |r| == |infos|
  {
    if infos == [] then []
    else HotelsOf(infos[..|infos| - 1], site) + [HotelFor(infos[|infos| - 1], site)]
  }

  lemma {:induction false} HotelsAt(infos: seq<CardInfo>, site: Session, j: nat)
    requires j < |infos|
    ensures HotelsOf(infos, site)[j] == HotelFor(infos[j], site)
  {
    var n := |infos| - 1;
    var init := infos[..n];
    assert infos == init + [infos[n]];
    HotelsOfSnoc(init, infos[n], site);
    if j < n {
      HotelsAt(init, site, j);
    }
  }

  /** The hotels the card loop would append if the search-result cards never
      went stale: one for each listed dict whose detail page loaded. */
  function Chosen(todo: seq<CardInfo>, g: nat, site: Session): seq<Hotel> {
    HotelsOf(Loaded(todo, g, site), site)
  }

  /** The loaded dicts are the listed ones whose load succeeded, and no more
      of them. */
  lemma {:induction false} LoadedSpec(todo: seq<CardInfo>, g: nat, site: Session, x: CardInfo)
    ensures |Loaded(todo, g, site)| <= |todo|
    ensures x in Loaded(todo, g, site) <==>
      exists i | 0 <= i < |todo| :: Loads(site, g, i) && x == todo[i]
  {
    if todo != [] {
      var n := |todo| - 1;
      var init := todo[..n];
      LoadedSpec(init, g, site, x);
      if exists i | 0 <= i < |todo| :: Loads(site, g, i) && x == todo[i] {
        var i :| 0 <= i < |todo| && Loads(site, g, i) && x == todo[i];
        if i < n {
          assert init[i] == todo[i];
        }
      }
      if x in Loaded(init, g, site) {
        var i :| 0 <= i < |init| && Loads(site, g, i) && x == init[i];
        assert todo[i] == init[i];
      }
    }
  }

  /** The hotels are those of the dicts whose detail page loaded. */
  lemma ChosenSpec(todo: seq<CardInfo>, g: nat, site: Session, h: Hotel)
    ensures |Chosen(todo, g, site)| <= |todo|
    ensures h in Chosen(todo, g, site) <==>
      exists i | 0 <= i < |todo| :: Loads(site, g, i) && h == HotelFor(todo[i], site)
  {
    var l := Loaded(todo, g, site);
    LoadedSpec(todo, g, site, h.info);
    if h in Chosen(todo, g, site) {
      var j :| 0 <= j < |l| && Chosen(todo, g, site)[j] == h;
      HotelsAt(l, site, j);
      LoadedSpec(todo, g, site, l[j]);
    }
    if exists i | 0 <= i < |todo| :: Loads(site, g, i) && h == HotelFor(todo[i], site) {
      var i :| 0 <= i < |todo| && Loads(site, g, i) && h == HotelFor(todo[i], site);
      LoadedSpec(todo, g, site, todo[i]);
      var j :| 0 <= j < |l| && l[j] == todo[i];
      HotelsAt(l, site, j);
      assert Chosen(todo, g, site)[j] == h;
    }
  }

  /** When every detail load succeeds, every listed dict gives a hotel. */
  lemma {:induction false} ChosenAll(todo: seq<CardInfo>, g: nat, site: Session)
    requires forall i | 0 <= i < |todo| :: Loads(site, g, i)
    ensures Loaded(todo, g, site) == todo
    ensures |Chosen(todo, g, site)| == |todo|
  {
    if todo != [] {
      var n := |todo| - 1;
      ChosenAll(todo[..n], g, site);
    }
  }

  /** The first of the detail loads numbered `g + j` to `g + n - 1` that does
      not raise; `n` when they all raise. */
  function FirstLoadFrom(site: Session, g: nat, n: nat, j: nat): (k: nat)
    requires j <= n
    ensures j <= k <= n
    ensures forall i | j <= i < k :: !Loads(site, g, i)
    ensures k < n ==> Loads(site, g, k)
    decreases n - j
  {
    if j == n then n
    else if Loads(site, g, j) then j
    else FirstLoadFrom(site, g, n, j + 1)
  }

  /** The first of `n` detail loads, from navigation number `g` on, that does
      not raise; `n` when they all raise. */
  function FirstLoad(site: Session, g: nat, n: nat): (k: nat)
    ensures k <= n
    ensures forall i | 0 <= i < k :: !Loads(site, g, i)
    ensures k < n ==> Loads(site, g, k)
  {
    FirstLoadFrom(site, g, n, 0)
  }

  lemma {:induction false} FirstLoadIs(site: Session, g: nat, n: nat, k: nat)
    requires k <= n
    requires forall i | 0 <= i < k :: !Loads(site, g, i)
    requires k < n ==> Loads(site, g, k)
    ensures FirstLoad(site, g, n) == k
  {
  }

  /** The detail loads scrape_hotels makes for the listed dicts: once one
      page has loaded, the browser has left the search page, every card read
      after it is stale and none of them is visited. */
  function Tried(todo: seq<CardInfo>, g: nat, site: Session): nat {
    var k := FirstLoad(site, g, |todo|);
    if k < |todo| then k + 1 else |todo|
  }

  /** The hotels scrape_hotels appends for the listed dicts: that of the
      first dict whose detail page loads, and no other. */
  function FirstHotel(todo: seq<CardInfo>, g: nat, site: Session): seq<Hotel> {
    var k := FirstLoad(site, g, |todo|);
    if k < |todo| then [HotelFor(todo[k], site)] else []
  }

  /** At most one hotel: the first listed dict whose page loads gives it,
      after a load for it and one for each dict before it; with no page
      loading there is no hotel and every dict costs a load. */
  lemma {:induction false} FirstHotelSpec(todo: seq<CardInfo>, g: nat, site: Session)
    ensures |FirstHotel(todo, g, site)| <= 1 && Tried(todo, g, site) <= |todo|
    ensures FirstHotel(todo, g, site) == [] <==> forall i | 0 <= i < |todo| :: !Loads(site, g, i)
    ensures FirstHotel(todo, g, site) == [] ==> Tried(todo, g, site) == |todo|
    ensures FirstHotel(todo, g, site) != [] ==>
      exists i | 0 <= i < |todo| ::
        && Loads(site, g, i) && (forall j | 0 <= j < i :: !Loads(site, g, j))
        && FirstHotel(todo, g, site) == [HotelFor(todo[i], site)] && Tried(todo, g, site) == i + 1
  {
    var k := FirstLoad(site, g, |todo|);
    if k < |todo| {
      assert Loads(site, g, k);
    }
  }

  /** Two listed dicts whose detail pages both load still give one hotel,
      and the later one's page is never requested. */
  lemma {:induction false} OneHotelOnly(todo: seq<CardInfo>, g: nat, site: Session, i: nat, j: nat)
    requires i < j < |todo| && Loads(site, g, i) && Loads(site, g, j)
    ensures |FirstHotel(todo, g, site)| == 1
    ensures Tried(todo, g, site) <= j
  {
    var k := FirstLoad(site, g, |todo|);
    assert k <= i;
  }

  /** The first loaded dict is the first of the loaded ones. */
  lemma {:induction false} LoadedFirst(todo: seq<CardInfo>, g: nat, site: Session)
    ensures var k := FirstLoad(site, g, |todo|);
      && (Loaded(todo, g, site) == [] <==> k == |todo|)
      && (k < |todo| ==> Loaded(todo, g, site)[0] == todo[k])
  {
    if todo != [] {
      var n := |todo| - 1;
      var init := todo[..n];
      LoadedFirst(init, g, site);
      var k0 := FirstLoad(site, g, n);
      if k0 < n {
        FirstLoadIs(site, g, |todo|, k0);
        assert init[k0] == todo[k0];
      } else if Loads(site, g, n) {
        FirstLoadIs(site, g, |todo|, n);
      } else {
        FirstLoadIs(site, g, |todo|, |todo|);
      }
    }
  }

  /** What scrape_hotels appends is the first of the hotels it would append
      if the cards stayed live. */
  lemma {:induction false} FirstOfChosen(todo: seq<CardInfo>, g: nat, site: Session)
    ensures var c := Chosen(todo, g, site);
      FirstHotel(todo, g, site) == if c == [] then [] else [c[0]]
  {
    LoadedFirst(todo, g, site);
    var l := Loaded(todo, g, site);
    if l != [] {
      HotelsAt(l, site, 0);
    }
  }

  /** A card read after the browser left the search page gives no dict. */
  lemma StaleCardSkipped()
    ensures CardInfoOf(Detached) == None && Take(Detached) == []
  {
    CardInfoNone(Detached);
  }

  /** `if limit:` keeps every card for a limit of None or 0. */
  function Limited<T>(cards: seq<T>, limit: Option<int>): (r: seq<T>)
    ensures r <= cards
  {
    if limit.None? || limit.value == 0 then cards else Kayak.Slice(cards, limit)
  }

  /** A limit of 0 processes every card here but none in the newer scraper,
      which slices unconditionally. */
  lemma LimitZero<T>(cards: seq<T>)
    ensures Limited(cards, Some(0)) == cards
    ensures Kayak.Slice(cards, Some(0)) == []
    ensures Limited(cards, None) == Kayak.Slice(cards, None)
  {
  }

  /** A positive limit keeps the same cards in both scrapers. */
  lemma LimitPositive<T>(cards: seq<T>, k: int)
    requires k > 0
    ensures Limited(cards, Some(k)) == Kayak.Slice(cards, Some(k))
    ensures |Limited(cards, Some(k))| == if k < |cards| then k else |cards|
  {
  }

  // ------------------------------------------------------ helper equivalences

  /** extract_price_details: the parse PriceExtractor makes on the stripped
      text of the main price sub-element, with the total and the taxes read
      beneath the element passed in. A raise in the total lookup ends the
      `try` block with the fields set so far, as in PriceCore. */
  function PriceDetailsOf(priceElement: Elem): Price.PriceInfo {
    Price.PriceCore(GetTextSafe(Live(priceElement), MAIN_PRICE), Live(priceElement))
  }

  /** Without a main price sub-element, or with a stale one, all five fields
      stay None. */
  lemma PriceDetailsMissing(priceElement: Elem)
    requires !Probe(Live(priceElement), MAIN_PRICE).Found?
    ensures PriceDetailsOf(priceElement) == Price.NoPrice
  {
  }

  /** When the main price sub-element is found, currency, amount and the
      per-night flag are what PriceExtractor reads from that sub-element. */
  lemma PriceDetailsHead(priceElement: Elem)
    requires Probe(Live(priceElement), MAIN_PRICE).Found?
    ensures var m := Probe(Live(priceElement), MAIN_PRICE).elem;
      var r := PriceDetailsOf(priceElement); var x := Price.Extract(Some(m));
      r.currency == x.currency && r.amount == x.amount && r.perNight == x.perNight
  {
  }

  // ------------------------------------------------------------- the scraper

  class KayakHotelScraper {
    const city: string
    const checkIn: string
    const checkOut: string
    const baseUrl: string
    const driver: Session
    var hotelsData: seq<Hotel>

    constructor (city: string, checkIn: string, checkOut: string, driver: Session)
      ensures this.city == city && this.checkIn == checkIn && this.checkOut == checkOut
      ensures this.driver == driver && baseUrl == BASE_URL && hotelsData == []
    {
      this.city := city;
      this.checkIn := checkIn;
      this.checkOut := checkOut;
      this.driver := driver;
      baseUrl := BASE_URL;
      hotelsData := [];
    }

    function ConstructSearchUrl(): string {
      SearchUrl(checkIn, checkOut)
    }

    /** find_element_with_retry, with its one-second sleep. */
    method FindElementWithRetry(parent: Item, sel: string) returns (r: Outcome<Option<Elem>>)
      ensures r == FindRetry(parent, sel)
    {
      ghost var lookups, naps;
      r, lookups, naps := Retry.FindElementWithRetry(_ => Probe(parent, sel), MAX_RETRIES, STALE_DELAY);
      FindRetryIsRetry(parent, sel);
    }

    /** get_page: one load, then scrolls until the height stops changing, at
        most three; false only when the load raised. */
    method GetPage(url: string) returns (ok: bool)
      modifies driver
      ensures ok == !driver.getFails(old(driver.gets)) && driver.gets == old(driver.gets) + 1
      ensures driver.page == if ok then driver.PageAt(url) else old(driver.page)
      ensures var s := Scrolls(driver.heights, old(driver.heightReads));
        && driver.scrolls == old(driver.scrolls) + (if ok then s else 0)
        && driver.heightReads == old(driver.heightReads) + (if ok then s + 1 else 0)
      ensures driver.refreshes == old(driver.refreshes) && driver.naps == old(driver.naps)
    {
      ok := driver.Get(url);
      if ok {
        ScrollToEnd();
      }
    }

    /** The scroll loop of get_page: scroll, read the height, and stop when
        it did not change or after three scrolls. */
    method ScrollToEnd()
      modifies driver
      ensures var s := Scrolls(driver.heights, old(driver.heightReads));
        && driver.scrolls == old(driver.scrolls) + s
        && driver.heightReads == old(driver.heightReads) + s + 1
      ensures driver.page == old(driver.page) && driver.gets == old(driver.gets)
      ensures driver.refreshes == old(driver.refreshes) && driver.naps == old(driver.naps)
    {
      ghost var r0, h := driver.heightReads, driver.heights;
      ghost var s0 := driver.scrolls;
      var last := driver.ReadHeight();
      var count: nat := 0;
      while count < MAX_SCROLLS
        invariant count <= MAX_SCROLLS
        invariant driver.heightReads == r0 + 1 + count && driver.scrolls == s0 + count
        invariant last == h(r0 + count)
        invariant forall j | 1 <= j <= count :: Grew(h, r0, j)
        invariant driver.page == old(driver.page) && driver.gets == old(driver.gets)
        invariant driver.refreshes == old(driver.refreshes) && driver.naps == old(driver.naps)
      {
        var height := ScrollOnce();
        if height == last {
          ScrollsIs(h, r0, count + 1);
          return;
        }
        GrewStep(h, r0, count);
        last := height;
        count := count + 1;
      }
      ScrollsIs(h, r0, count);
    }

    /** One pass of the scroll loop: scroll to the bottom, then read the
        new height. */
    method ScrollOnce() returns (height: nat)
      modifies driver
      ensures height == driver.heights(old(driver.heightReads))
      ensures driver.heightReads == old(driver.heightReads) + 1 && driver.scrolls == old(driver.scrolls) + 1
      ensures driver.page == old(driver.page) && driver.gets == old(driver.gets)
      ensures driver.refreshes == old(driver.refreshes) && driver.naps == old(driver.naps)
    {
      driver.ScrollToBottom();
      height := driver.ReadHeight();
    }

    /** extract_room_details on the current page. */
    method ExtractRoomDetails() returns (rooms: seq<LegacyRoom>)
      ensures rooms == RoomsOf(driver.page)
    {
      rooms := [];
      var cards := Children(Live(driver.page), ROOM_CARD);
      var k := 0;
      while k < |cards|
        invariant 0 <= k <= |cards|
        invariant rooms == FilterMap(cards[..k], KeptRoom)
      {
        FilterMapPrefix(cards, k, KeptRoom);
        var r := ProcessRoom(cards[k]);
        if r.Some? {
          rooms := rooms + [r.value];
        }
        k := k + 1;
      }
      assert cards[..k] == cards;
    }

    /** One room of extract_room_details. */
    method ProcessRoom(room: Item) returns (r: Option<LegacyRoom>)
      ensures r == KeptRoom(room)
    {
      var base := ReadRoomBase(room);
      if base.Raise? {
        return None;
      }
      var freebie := FindElementWithRetry(room, FREEBIE);
      if freebie.Raise? {
        return None;
      }
      var info := WithFreebie(base.value, freebie.value);
      r := if Worth(info) then Some(info) else None;
    }

    /** The type, price and provider lookups of one room. */
    method ReadRoomBase(room: Item) returns (r: Outcome<LegacyRoom>)
      ensures r == RoomBaseOf(room)
    {
      var typeElem := FindElementWithRetry(room, ROOM_TYPE);
      if typeElem.Raise? {
        return Raise(typeElem.exc);
      }
      var priceElem := FindElementWithRetry(room, ROOM_PRICE);
      if priceElem.Raise? {
        return Raise(priceElem.exc);
      }
      var providerElem := FindElementWithRetry(room, PROVIDER);
      if providerElem.Raise? {
        return Raise(providerElem.exc);
      }
      var info := NoRoom;
      if typeElem.value.Some? {
        info := info.(roomType := Some(Strip(typeElem.value.value.text)));
      }
      if priceElem.value.Some? {
        info := info.(price := Some(Strip(priceElem.value.value.text)));
      }
      if providerElem.value.Some? {
        info := info.(provider := Attr(providerElem.value.value, "alt"));
      }
      return Ok(info);
    }

    /** extract_amenities: the same categories as AmenitiesExtractor, read
        from the current page without waiting. */
    method ExtractAmenities() returns (a: Amenities.Amenities)
      ensures a == Amenities.Extract(driver.page)
    {
      a := Amenities.CategorizeAll(Children(Live(driver.page), Amenities.AMENITY_SELECTOR));
    }

    /** extract_policies: what PoliciesExtractor gives for the same room. */
    method ExtractPolicies(room: Item) returns (p: Policies.Policies)
      ensures p == Policies.Extract(room)
    {
      p := Policies.FileAll(Children(room, Policies.POLICY_SELECTOR));
    }

    /** extract_bed_info: what RoomExtractor gives for the same room. */
    method ExtractBedInfo(room: Item) returns (b: Room.BedInfo)
      ensures b == Room.BedInfoOf(room)
    {
      b := Room.ParseBeds(Children(room, Room.BED_SELECTOR));
    }

    /** extract_hotel_basic_info. */
    method ExtractHotelBasicInfo(card: Item) returns (r: Option<CardInfo>)
      ensures r == CardInfoOf(card)
    {
      var name := FindElementWithRetry(card, NAME);
      if name.Raise? {
        return None;
      }
      var info := NoInfo;
      if name.value.Some? {
        info := info.(name := Set(Strip(name.value.value.text)), detailUrl := Set(Attr(name.value.value, "href")));
      }
      var loc := FindElementWithRetry(card, LOCATION);
      if loc.Raise? {
        return None;
      }
      if loc.value.Some? {
        info := info.(location := Set(Strip(loc.value.value.text)));
      }
      var price := ReadPrice(card);
      info := info.(price := price);
      info := ReadRatings(info, card);
      return Some(info);
    }

    /** The price block of extract_hotel_basic_info, with its fallback. */
    method ReadPrice(card: Item) returns (p: Key<Option<string>>)
      ensures p == PriceKey(card)
    {
      p := Absent;
      var price := FindElementWithRetry(card, PRICE_MAIN);
      if price.Ok? && price.value.None? {
        price := FindElementWithRetry(card, PRICE_FALLBACK);
      }
      if price.Raise? {
        p := Set(None);
      } else if price.value.Some? {
        p := Set(Some(Strip(price.value.value.text)));
      }
    }

    /** The rating block of extract_hotel_basic_info. */
    method ReadRatings(info: CardInfo, card: Item) returns (r: CardInfo)
      ensures r == WithRatings(info, card)
    {
      r := info;
      var rating := FindElementWithRetry(card, RATING);
      if rating.Ok? {
        var reviews := FindElementWithRetry(card, REVIEWS);
        if reviews.Ok? {
          if rating.value.Some? {
            r := r.(rating := Set(Strip(rating.value.value.text)));
          }
          if reviews.value.Some? {
            r := r.(reviews := Set(Strip(reviews.value.value.text)));
          }
        }
      }
    }

    /** extract_hotel_details: None when the page does not load, otherwise
        the record of the loaded page. */
    method ExtractHotelDetails(detailUrl: string) returns (d: Option<Details>)
      modifies driver
      ensures d == if driver.getFails(old(driver.gets)) then None else Some(DetailsOf(driver.PageAt(detailUrl)))
      ensures driver.gets == old(driver.gets) + 1
      ensures driver.page == if d.Some? then driver.PageAt(detailUrl) else old(driver.page)
      ensures driver.refreshes == old(driver.refreshes) && driver.naps == old(driver.naps)
    {
      var ok := GetPage(detailUrl);
      if !ok {
        return None;
      }
      var rooms := ExtractRoomDetails();
      var amenities := ExtractAmenities();
      var desc := WaitForElementQuiet(Live(driver.page), DESCRIPTION);
      var address := WaitForElementQuiet(Live(driver.page), ADDRESS);
      var details := Details(rooms, amenities, Absent, Absent);
      if desc.Some? {
        details := details.(description := Set(Strip(desc.value.text)));
      }
      if address.Some? {
        details := details.(fullAddress := Set(Strip(address.value.text)));
      }
      return Some(details);
    }

    /** One card of the scrape loop: a kept card's detail page is loaded at
        once, and the hotel appended when it loaded. `loaded` says the
        browser has then left the search page. */
    method ProcessCard(card: Item) returns (loaded: bool)
      modifies this, driver
      ensures loaded == (Take(card) != [] && Loads(driver, old(driver.gets), 0))
      ensures driver.gets == old(driver.gets) + |Take(card)|
      ensures hotelsData == old(hotelsData) + (if loaded then [HotelFor(Take(card)[0], driver)] else [])
      ensures driver.refreshes == old(driver.refreshes) && driver.naps == old(driver.naps)
    {
      loaded := false;
      var info := ExtractHotelBasicInfo(card);
      if info.Some? && info.value.detailUrl.Set? && info.value.detailUrl.value.Some?
         && info.value.detailUrl.value.value != "" {
        loaded := VisitCard(info.value);
      }
    }

    /** The body of `if hotel_info and hotel_info.get('detail_url')`: the
        detail page of a kept dict is loaded, and the merged dict appended
        when the load did not raise. */
    method VisitCard(info: CardInfo) returns (loaded: bool)
      requires KeptCard(Some(info))
      modifies this, driver
      ensures loaded == Loads(driver, old(driver.gets), 0)
      ensures driver.gets == old(driver.gets) + 1
      ensures hotelsData == old(hotelsData) + (if loaded then [HotelFor(info, driver)] else [])
      ensures driver.refreshes == old(driver.refreshes) && driver.naps == old(driver.naps)
    {
      var details := ExtractHotelDetails(info.detailUrl.value.value);
      loaded := details.Some?;
      if loaded {
        hotelsData := hotelsData + [Hotel(info, details.value)];
      }
    }

    /** scrape_hotels: [] when the search page does not load or shows no
        card; otherwise the list, extended by the hotel of the first kept
        card whose detail page loaded. The `i`-th detail load is navigation
        number `old(gets) + 1 + i`. */
    method ScrapeHotels(limit: Option<int>) returns (r: seq<Hotel>)
      modifies this, driver
      ensures var g := old(driver.gets);
        var cards := WaitForElements(Live(driver.PageAt(SearchUrl(checkIn, checkOut))), HOTEL_CARD);
        if driver.getFails(g) || cards.Raise? || cards.value == [] then
          r == [] && hotelsData == old(hotelsData) && driver.gets == g + 1
        else
          var todo := Listed(Limited(cards.value, limit));
          && r == hotelsData
          && hotelsData == old(hotelsData) + FirstHotel(todo, g + 1, driver)
          && driver.gets == g + 1 + Tried(todo, g + 1, driver)
      ensures driver.refreshes == old(driver.refreshes) && driver.naps == old(driver.naps)
    {
      var url := ConstructSearchUrl();
      var ok := GetPage(url);
      if !ok {
        return [];
      }
      var found := WaitForElements(Live(driver.page), HOTEL_CARD);
      if found.Raise? || found.value == [] {
        return [];
      }
      ProcessCards(Limited(found.value, limit));
      return hotelsData;
    }

    /** The card loop of scrape_hotels. The cards are element references into
        the search page: once a detail page has loaded they are stale, and
        the loop reads each of the rest as such. */
    method ProcessCards(cards: seq<Item>)
      modifies this, driver
      ensures driver.gets == old(driver.gets) + Tried(Listed(cards), old(driver.gets), driver)
      ensures hotelsData == old(hotelsData) + FirstHotel(Listed(cards), old(driver.gets), driver)
      ensures driver.refreshes == old(driver.refreshes) && driver.naps == old(driver.naps)
    {
      ghost var g, start := driver.gets, hotelsData;
      var left := false;
      var i := 0;
      while i < |cards|
        invariant 0 <= i <= |cards|
        invariant left == (FirstLoad(driver, g, |Listed(cards[..i])|) < |Listed(cards[..i])|)
        invariant driver.gets == g + Tried(Listed(cards[..i]), g, driver)
        invariant hotelsData == start + FirstHotel(Listed(cards[..i]), g, driver)
        invariant driver.refreshes == old(driver.refreshes) && driver.naps == old(driver.naps)
      {
        var card := if left then Detached else cards[i];
        StaleCardSkipped();
        ghost var n0, h0 := driver.gets, hotelsData;
        var loaded := ProcessCard(card);
        ScrapeStep(cards, i, g, driver, start, left, Take(card), loaded, n0, h0, driver.gets, hotelsData);
        left := left || loaded;
        i := i + 1;
      }
      assert cards[..i] == cards;
    }

    /** refresh_and_retry: up to three refreshes; after the first that does
        not raise it sleeps `2 ** attempt` seconds and gives true. */
    method RefreshAndRetry(url: string) returns (ok: bool)
      modifies driver
      ensures var n := Kayak.Failures(driver.refreshFails, old(driver.refreshes), REFRESH_RETRIES);
        && ok == (n < REFRESH_RETRIES)
        && driver.refreshes == old(driver.refreshes) + (if ok then n + 1 else n)
        && driver.naps == old(driver.naps) + (if ok then [Kayak.Pow2(n)] else [])
      ensures driver.page == old(driver.page) && driver.gets == old(driver.gets)
      ensures driver.heightReads == old(driver.heightReads) && driver.scrolls == old(driver.scrolls)
    {
      var attempt: nat := 0;
      while attempt < REFRESH_RETRIES
        invariant attempt <= REFRESH_RETRIES
        invariant Kayak.Failures(driver.refreshFails, old(driver.refreshes), REFRESH_RETRIES) ==
                  Kayak.FirstGood(driver.refreshFails, old(driver.refreshes), REFRESH_RETRIES, attempt)
        invariant driver.refreshes == old(driver.refreshes) + attempt
        invariant driver.naps == old(driver.naps) && driver.page == old(driver.page)
        invariant driver.gets == old(driver.gets)
        invariant driver.heightReads == old(driver.heightReads) && driver.scrolls == old(driver.scrolls)
      {
        var refreshed := driver.Refresh();
        if refreshed {
          driver.Sleep(Kayak.Pow2(attempt));
          return true;
        }
        attempt := attempt + 1;
      }
      return false;
    }
  }

  /** The card-loop invariant is kept by one card. `left` says a detail page
      loaded before card `i`; `b` is what the loop takes from the card it
      reads, the stale one in that case. `n0` and `h0` are the navigation
      count and the list before the card, `n1` and `h1` after it. */
  lemma {:induction false} ScrapeStep(cards: seq<Item>, i: nat, g: nat, site: Session, start: seq<Hotel>,
                   left: bool, b: seq<CardInfo>, loaded: bool,
                   n0: nat, h0: seq<Hotel>, n1: nat, h1: seq<Hotel>)
    requires i < |cards|
    requires left == (FirstLoad(site, g, |Listed(cards[..i])|) < |Listed(cards[..i])|)
    requires n0 == g + Tried(Listed(cards[..i]), g, site)
    requires h0 == start + FirstHotel(Listed(cards[..i]), g, site)
    requires b == if left then [] else Take(cards[i])
    requires loaded == (b != [] && Loads(site, n0, 0))
    requires n1 == n0 + |b| && h1 == h0 + (if loaded then [HotelFor(b[0], site)] else [])
    ensures (left || loaded) == (FirstLoad(site, g, |Listed(cards[..i + 1])|) < |Listed(cards[..i + 1])|)
    ensures n1 == g + Tried(Listed(cards[..i + 1]), g, site)
    ensures h1 == start + FirstHotel(Listed(cards[..i + 1]), g, site)
  {
    ListedSnoc(cards, i);
    FirstStep(Listed(cards[..i]), Take(cards[i]), Listed(cards[..i + 1]), g, site, start,
              left, b, loaded, n0, h0, n1, h1);
  }

  /** ScrapeStep on the listed dicts: `a` before the card, `t` the card's
      dict if it is kept, `a1` after. Once a page has loaded nothing more is
      visited or appended; before that, a kept card costs one load and gives
      the hotel when its page loads. */
  lemma {:induction false} FirstStep(a: seq<CardInfo>, t: seq<CardInfo>, a1: seq<CardInfo>, g: nat, site: Session,
                  start: seq<Hotel>, left: bool, b: seq<CardInfo>, loaded: bool,
                  n0: nat, h0: seq<Hotel>, n1: nat, h1: seq<Hotel>)
    requires |t| <= 1 && a1 == a + t
    requires left == (FirstLoad(site, g, |a|) < |a|)
    requires n0 == g + Tried(a, g, site) && h0 == start + FirstHotel(a, g, site)
    requires b == if left then [] else t
    requires loaded == (b != [] && Loads(site, n0, 0))
    requires n1 == n0 + |b| && h1 == h0 + (if loaded then [HotelFor(b[0], site)] else [])
    ensures (left || loaded) == (FirstLoad(site, g, |a1|) < |a1|)
    ensures n1 == g + Tried(a1, g, site) && h1 == start + FirstHotel(a1, g, site)
  {
    var k := FirstLoad(site, g, |a|);
    if left {
      FirstLoadIs(site, g, |a1|, k);
      assert a1[k] == a[k];
    } else if t != [] && Loads(site, g, |a|) {
      FirstLoadIs(site, g, |a1|, |a|);
      assert a1[|a|] == t[0];
    } else {
      FirstLoadIs(site, g, |a1|, |a1|);
    }
  }

  lemma HotelsOfSnoc(s: seq<CardInfo>, x: CardInfo, site: Session)
    ensures HotelsOf(s + [x], site) == HotelsOf(s, site) + [HotelFor(x, site)]
  {
    assert (s + [x])[..|s|] == s;
  }

}
