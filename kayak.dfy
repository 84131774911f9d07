/** KayakHotelScraper of scraper/src/scrapers/kayak.py: the search URL, the
    page-load retry loop with exponential backoff, the detail-page record
    and the two-phase scrape (basic information of the first `limit` result
    cards, then the detail page of every card with a link), whose list
    format_output finally wraps in a constant-shaped dict. The page
    extractors themselves are in KayakPage. */
module Kayak {
  import opened Wrappers
  import opened PyStr
  import opened Seqs
  import opened Dom
  import opened Retry
  import opened Browser
  import opened KayakPage

  const BASE_URL := "https://www.kayak.com/hotels"
  const HOTEL_CARD := "div.S0Ps-resultInner"
  /** The default `max_retries` of load_page. */
  const LOAD_RETRIES: int := 3

  // ---------------------------------------------------------------- search URL

  /** construct_search_url, with the dates already formatted as `%Y-%m-%d`. */
  function SearchUrl(base: string, city: string, checkIn: string, checkOut: string): (url: string)
    ensures |url| == |base| + |city| + |checkIn| + |checkOut| + 30
  {
    base + "/" + ReplaceChar(city, ' ', '-') + "-c52508/" + checkIn + "/" + checkOut + "/2adults?sort=rank_a"
  }

  /** The search URL is the base, a slash, and four slash-separated pieces:
      the city with every space turned into '-' followed by the fixed
      location code, the two dates, and the fixed guest and sort options. */
  lemma SearchUrlPieces(base: string, city: string, checkIn: string, checkOut: string)
    requires '/' !in city && '/' !in checkIn && '/' !in checkOut
    ensures var url := SearchUrl(base, city, checkIn, checkOut);
      && url[..|base| + 1] == base + "/"
      && SplitOn(url[|base| + 1..], '/') ==
           [ReplaceChar(city, ' ', '-') + "-c52508", checkIn, checkOut, "2adults?sort=rank_a"]
  {
    var seg := ReplaceChar(city, ' ', '-');
    ReplaceCharKeeps(city, ' ', '-', '/');
    var first, last := seg + "-c52508", "2adults?sort=rank_a";
    var ps := [first, checkIn, checkOut, last];
    JoinFour(first, checkIn, checkOut, last, '/');
    assert ps == [first, checkIn, checkOut, last];
    assert forall k | 0 <= k < |ps| :: '/' !in ps[k];
    SplitOnJoin(ps, '/');
    UrlTail(base, seg, checkIn, checkOut);
  }

  lemma JoinFour(a: string, b: string, c: string, d: string, sep: char)
    ensures JoinOn([a, b, c, d], sep) == a + [sep] + b + [sep] + c + [sep] + d
  {
    var ps := [a, b, c, d];
    assert ps[1..] == [b, c, d] && [b, c, d][1..] == [c, d] && [c, d][1..] == [d];
    assert JoinOn([d], sep) == d;
    assert JoinOn([c, d], sep) == c + [sep] + d;
    assert JoinOn([b, c, d], sep) == b + [sep] + (c + [sep] + d);
  }

  lemma UrlTail(base: string, seg: string, checkIn: string, checkOut: string)
    ensures var url := base + "/" + seg + "-c52508/" + checkIn + "/" + checkOut + "/2adults?sort=rank_a";
      && url[..|base| + 1] == base + "/"
      && url[|base| + 1..] == (seg + "-c52508") + ['/'] + checkIn + ['/'] + checkOut + ['/'] + "2adults?sort=rank_a"
  {
    var tail := (seg + "-c52508") + ['/'] + checkIn + ['/'] + checkOut + ['/'] + "2adults?sort=rank_a";
    var url := base + "/" + seg + "-c52508/" + checkIn + "/" + checkOut + "/2adults?sort=rank_a";
    assert url == (base + "/") + tail;
  }

  // --------------------------------------------------------- load_page backoff

  /** Whether attempt `j` of a load that starts at get number `g0` raises. */
  predicate FailsAt(fails: nat -> bool, g0: nat, j: nat) {
    fails(g0 + j)
  }

  /** The first attempt from `k` on whose `driver.get` does not raise, among
      attempts below `maxRetries`; `maxRetries` (at least `k`) when none. */
  function FirstGood(fails: nat -> bool, g0: nat, maxRetries: int, k: nat): (n: nat)
    ensures k <= n
    decreases if k < maxRetries then maxRetries - k else 0
  {
    if maxRetries <= k then k
    else if !fails(g0 + k) then k
    else FirstGood(fails, g0, maxRetries, k + 1)
  }

  /** The number of attempts load_page fails before it succeeds; when it
      never succeeds, the number of attempts (0 when `maxRetries` <= 0). */
  function Failures(fails: nat -> bool, g0: nat, maxRetries: int): nat {
    FirstGood(fails, g0, maxRetries, 0)
  }

  /** `2 ** k`. */
  function Pow2(k: nat): (r: nat)
    ensures r >= 1
  {
    if k == 0 then 1 else 2 * Pow2(k - 1)
  }

  /** The backoff sleeps after failed attempts 0, ..., m - 1. */
  function Backoff(m: nat): (r: seq<nat>)
    ensures |r| == m && forall k | 0 <= k < m :: r[k] == Pow2(k)
  {
    seq(m, k requires 0 <= k < m => Pow2(k))
  }

  /** A failed attempt below the bound moves the search to the next one. */
  lemma FirstGoodSkip(fails: nat -> bool, g0: nat, maxRetries: int, k: nat)
    requires k < maxRetries && fails(g0 + k)
    ensures FirstGood(fails, g0, maxRetries, k) == FirstGood(fails, g0, maxRetries, k + 1)
  {
  }

  /** The search stops at a good attempt below the bound. */
  lemma FirstGoodStop(fails: nat -> bool, g0: nat, maxRetries: int, k: nat)
    requires k < maxRetries && !fails(g0 + k)
    ensures FirstGood(fails, g0, maxRetries, k) == k
  {
  }

  /** The search stops at the bound. */
  lemma FirstGoodBound(fails: nat -> bool, g0: nat, maxRetries: int, k: nat)
    requires maxRetries <= k
    ensures FirstGood(fails, g0, maxRetries, k) == k
  {
  }

  /** One more backoff sleep. */
  lemma BackoffSnoc(naps: seq<nat>, m: nat)
    ensures (naps + Backoff(m)) + [Pow2(m)] == naps + Backoff(m + 1)
  {
    assert Backoff(m) + [Pow2(m)] == Backoff(m + 1);
  }

  /** The first good attempt: every attempt before it fails, it does not fail
      when it is below the bound, and otherwise it is the bound. */
  lemma {:induction false} FirstGoodSpec(fails: nat -> bool, g0: nat, maxRetries: int, k: nat)
    ensures var n := FirstGood(fails, g0, maxRetries, k);
      && (forall j | k <= j < n :: FailsAt(fails, g0, j))
      && (n < maxRetries ==> !fails(g0 + n))
      && (n >= maxRetries ==> n == if k < maxRetries then maxRetries else k)
    decreases if k < maxRetries then maxRetries - k else 0
  {
    if k < maxRetries && fails(g0 + k) {
      FirstGoodSpec(fails, g0, maxRetries, k + 1);
    }
  }

  /** load_page succeeds exactly when one of its `maxRetries` attempts does
      not raise, and then after exactly the failures before that attempt; it
      never makes more than `maxRetries` attempts. */
  lemma LoadSucceedsIff(fails: nat -> bool, g0: nat, maxRetries: int)
    ensures Failures(fails, g0, maxRetries) < maxRetries <==>
      exists j | 0 <= j < maxRetries :: !FailsAt(fails, g0, j)
    ensures Failures(fails, g0, maxRetries) <= if maxRetries > 0 then maxRetries else 0
    ensures forall j | 0 <= j < Failures(fails, g0, maxRetries) :: FailsAt(fails, g0, j)
  {
    FirstGoodSpec(fails, g0, maxRetries, 0);
    var n := Failures(fails, g0, maxRetries);
    if n < maxRetries {
      assert !FailsAt(fails, g0, n);
    }
  }

  /** The waits grow: each backoff sleep doubles the one before. */
  lemma BackoffDoubles(m: nat, k: nat)
    requires 0 < k < m
    ensures Backoff(m)[k] == 2 * Backoff(m)[k - 1]
  {
  }

  // ------------------------------------------------------------ hotel records

  /** What extract_hotel_details returns, as the keys of its dict: each key
      is set only when its list is non-empty, and `{}` has none. */
  datatype Details = Details(detailImages: Key<seq<Image>>, rooms: Key<seq<KRoom>>, amenities: Key<seq<string>>)

  const NoDetails := Details(Absent, Absent, Absent)

  /** A key assigned only when the list is truthy. */
  function KeyIfAny<T>(s: seq<T>): (k: Key<seq<T>>)
    ensures k.Set? <==> s != []
    ensures k.Set? ==> k.value == s
  {
    if s == [] then Absent else Set(s)
  }

  /** The details read from a loaded detail page. */
  function DetailsOf(page: Elem): Details {
    Details(KeyIfAny(DetailImages(page)), KeyIfAny(RoomDetails(page)), KeyIfAny(AmenityList(page)))
  }

  /** A hotel of `hotels_data`: the card's dict, its images extended by the
      detail images, updated with the remaining detail keys. */
  datatype Hotel = Hotel(info: Listing, rooms: Key<seq<KRoom>>, amenities: Key<seq<string>>)

  /** `hotel_info['images'].extend(details.pop('detail_images'))` when the
      key is truthy, then `hotel_info.update(details)`. */
  function Merge(info: Listing, d: Details): Hotel {
    var extra := match d.detailImages
      case Set(images) => images
      case Absent => [];
    Hotel(info.(images := info.images + extra), d.rooms, d.amenities)
  }

  /** The merged hotels, one per card in card order. */
  function Merged(todo: seq<Listing>, details: seq<Details>): (r: seq<Hotel>)
    requires |details| == |todo|
    ensures |r| == |todo|
  {
    seq(|todo|, i requires 0 <= i < |todo| => Merge(todo[i], details[i]))
  }

  /** A merged hotel keeps its card's fields; its images are the search
      images followed by every detail image of the page, without
      deduplication; a failed detail load adds nothing. */
  lemma MergeSpec(info: Listing, page: Elem)
    ensures Merge(info, DetailsOf(page)).info == info.(images := info.images + DetailImages(page))
    ensures Merge(info, DetailsOf(page)).rooms.Set? <==> RoomDetails(page) != []
    ensures Merge(info, DetailsOf(page)).amenities.Set? <==> AmenityList(page) != []
    ensures Merge(info, NoDetails) == Hotel(info, Absent, Absent)
  {
    assert info.images + [] == info.images;
  }

  /** Every kept hotel is appended exactly once, in card order, also when its
      detail load failed and gave `{}`. */
  lemma MergedOnce(todo: seq<Listing>, details: seq<Details>, i: nat)
    requires |details| == |todo| && i < |todo|
    ensures Merged(todo, details)[i].info.hotelName == todo[i].hotelName
    ensures Merged(todo, details)[i].info.detailUrl == todo[i].detailUrl
    ensures Merged(todo, details)[i].info.images[..|todo[i].images|] == todo[i].images
    ensures details[i] == NoDetails ==> Merged(todo, details)[i] == Hotel(todo[i], Absent, Absent)
  {
    assert todo[i].images + [] == todo[i].images;
  }

  /** The `hotels_data` field: the list of hotel dicts, or the dict
      format_output replaces it with. */
  datatype HotelsData =
    | Records(hotels: seq<Hotel>)
    | Formatted(city: string, inner: HotelsData, currentPage: nat, totalPages: nat,
                scrapingDate: string, scrapingTime: string, sourceUrl: string)

  /** `hotels_data` after appending `hs`: a list grows, and a dict, on which
      `append` raises, stays as it is. */
  function Appended(data: HotelsData, hs: seq<Hotel>): HotelsData {
    if data.Records? then Records(data.hotels + hs) else data
  }

  lemma AppendedSnoc(data: HotelsData, hs: seq<Hotel>, h: Hotel)
    ensures Appended(data, hs + [h]) == Appended(Appended(data, hs), [h])
  {
    if data.Records? {
      assert data.hotels + (hs + [h]) == (data.hotels + hs) + [h];
    }
  }

  // --------------------------------------------------------------- card phase

  /** A card is processed when its basic information was read and its
      `detail_url` is truthy. */
  predicate Kept(info: Option<Listing>) {
    info.Some? && Truthy(info.value.detailUrl)
  }

  /** `hotels_to_process` after the loop over `cards`. */
  function ToProcess(cards: seq<Item>, parseFloat: string -> Option<real>): seq<Listing> {
    if cards == [] then []
    else
      var info := ListingOf(cards[|cards| - 1], parseFloat);
      ToProcess(cards[..|cards| - 1], parseFloat) + (if Kept(info) then [info.value] else [])
  }

  /** There are never more listings to process than cards. */
  lemma {:induction false} ToProcessShorter(cards: seq<Item>, parseFloat: string -> Option<real>)
    ensures |ToProcess(cards, parseFloat)| <= |cards|
  {
    if cards != [] {
      ToProcessShorter(cards[..|cards| - 1], parseFloat);
    }
  }

  /** A listing is to be processed exactly when some card yields it with a
      truthy `detail_url`. */
  lemma {:induction false} ToProcessMembers(cards: seq<Item>, parseFloat: string -> Option<real>, l: Listing)
    ensures l in ToProcess(cards, parseFloat) <==> YieldedBy(cards, parseFloat, l)
  {
    if cards != [] {
      var init, x := cards[..|cards| - 1], cards[|cards| - 1];
      assert cards == init + [x];
      ToProcessMembers(init, parseFloat, l);
      ToProcessSnoc(init, x, parseFloat);
      YieldedSnoc(init, x, parseFloat, l);
    }
  }

  /** Some card yields `l` and `l` has a truthy link. */
  predicate YieldedBy(cards: seq<Item>, parseFloat: string -> Option<real>, l: Listing) {
    exists i | 0 <= i < |cards| :: ListingOf(cards[i], parseFloat) == Some(l) && Truthy(l.detailUrl)
  }

  lemma YieldedSnoc(init: seq<Item>, x: Item, parseFloat: string -> Option<real>, l: Listing)
    ensures YieldedBy(init + [x], parseFloat, l) <==>
      YieldedBy(init, parseFloat, l) || (ListingOf(x, parseFloat) == Some(l) && Truthy(l.detailUrl))
  {
    var cards := init + [x];
    if YieldedBy(init, parseFloat, l) {
      var i :| 0 <= i < |init| && ListingOf(init[i], parseFloat) == Some(l) && Truthy(l.detailUrl);
      assert cards[i] == init[i];
    }
    if ListingOf(x, parseFloat) == Some(l) && Truthy(l.detailUrl) {
      assert cards[|init|] == x;
    }
    if YieldedBy(cards, parseFloat, l) {
      var i :| 0 <= i < |cards| && ListingOf(cards[i], parseFloat) == Some(l) && Truthy(l.detailUrl);
      if i < |init| {
        assert init[i] == cards[i];
      }
    }
  }

  lemma ToProcessSnoc(init: seq<Item>, x: Item, parseFloat: string -> Option<real>)
    ensures var info := ListingOf(x, parseFloat);
      ToProcess(init + [x], parseFloat) == ToProcess(init, parseFloat) + (if Kept(info) then [info.value] else [])
  {
    assert (init + [x])[..|init|] == init;
  }

  /** Every listing to be processed has a truthy link. */
  lemma {:induction false} ToProcessLinked(cards: seq<Item>, parseFloat: string -> Option<real>)
    ensures forall i | 0 <= i < |ToProcess(cards, parseFloat)| :: Truthy(ToProcess(cards, parseFloat)[i].detailUrl)
  {
    if cards != [] {
      var init, x := cards[..|cards| - 1], cards[|cards| - 1];
      assert cards == init + [x];
      ToProcessLinked(init, parseFloat);
      ToProcessSnoc(init, x, parseFloat);
      var before, r := ToProcess(init, parseFloat), ToProcess(cards, parseFloat);
      forall i | 0 <= i < |r| ensures Truthy(r[i].detailUrl) {
        if i < |before| {
          assert r[i] == before[i];
        }
      }
    }
  }

  /** `hotel_elements[:limit]`: Python slicing, where None takes every card
      and a negative limit drops cards from the end. */
  function Slice<T>(s: seq<T>, limit: Option<int>): (r: seq<T>)
    ensures r <= s
    ensures limit.None? ==> r == s
    ensures limit.Some? && limit.value >= 0 ==> |r| == if limit.value < |s| then limit.value else |s|
    ensures limit.Some? && limit.value < 0 ==> |r| == if |s| + limit.value > 0 then |s| + limit.value else 0
  {
    match limit
    case None => s
    case Some(k) =>
      if k >= 0 then (if k < |s| then s[..k] else s)
      else if |s| + k > 0 then s[..|s| + k] else []
  }

  /** The basic-information loop of scrape_hotels. */
  method CollectListings(cards: seq<Item>, parseFloat: string -> Option<real>) returns (todo: seq<Listing>)
    ensures todo == ToProcess(cards, parseFloat)
  {
    todo := [];
    var i := 0;
    while i < |cards|
      invariant 0 <= i <= |cards|
      invariant todo == ToProcess(cards[..i], parseFloat)
    {
      assert cards[..i + 1][..i] == cards[..i];
      var info := ExtractListing(cards[i], parseFloat);
      if info.Some? && info.value.detailUrl.Some? && info.value.detailUrl.value != "" {
        todo := todo + [info.value];
      }
      i := i + 1;
    }
    assert cards[..i] == cards;
  }

  // -------------------------------------------------------------- the scraper

  /** A detail record that is either `{}` or the one the page at the card's
      link gives. */
  predicate FromPage(d: Details, site: Session, info: Listing) {
    d == NoDetails || (info.detailUrl.Some? && d == DetailsOf(site.PageAt(info.detailUrl.value)))
  }

  /** How many `driver.get` calls one `load_page` with the default bound
      makes when its first attempt is the `g`-th. */
  function LoadsUsed(fails: nat -> bool, g: nat): nat {
    var n := Failures(fails, g, LOAD_RETRIES);
    if n < LOAD_RETRIES then n + 1 else n
  }

  /** The `get` count after one hotel of the detail loop begun at the `g`-th
      `get`: its detail load, then, while `hotels_data` is a list, the
      reload of the search page. */
  function AfterHotel(fails: nat -> bool, g: nat, isList: bool): nat {
    var g1 := g + LoadsUsed(fails, g);
    if isList then g1 + LoadsUsed(fails, g1) else g1
  }

  /** Whether each of `n` hotels of the detail loop, begun at the `g`-th
      `get`, has its `load_page` succeed. */
  function LoadRun(fails: nat -> bool, g: nat, n: nat, isList: bool): (r: seq<bool>)
    ensures |r| == n
    ensures n > 0 ==> r[0] == (Failures(fails, g, LOAD_RETRIES) < LOAD_RETRIES)
    decreases n
  {
    if n == 0 then []
    else [Failures(fails, g, LOAD_RETRIES) < LOAD_RETRIES] + LoadRun(fails, AfterHotel(fails, g, isList), n - 1, isList)
  }

  /** When no `get` raises, every hotel's detail page loads. */
  lemma {:induction false} LoadRunAll(fails: nat -> bool, g: nat, n: nat, isList: bool)
    requires forall m: nat :: !fails(m)
    ensures forall i | 0 <= i < n :: LoadRun(fails, g, n, isList)[i]
    decreases n
  {
    if n > 0 {
      FirstGoodStop(fails, g, LOAD_RETRIES, 0);
      var rest := LoadRun(fails, AfterHotel(fails, g, isList), n - 1, isList);
      LoadRunAll(fails, AfterHotel(fails, g, isList), n - 1, isList);
      forall i | 1 <= i < n ensures LoadRun(fails, g, n, isList)[i] {
        assert LoadRun(fails, g, n, isList)[i] == rest[i - 1];
      }
    }
  }

  /** The record of one visited hotel: the page's details when its
      `load_page` succeeded, `{}` otherwise. */
  function DetailOf(site: Session, loaded: bool, info: Listing): Details
    requires info.detailUrl.Some?
  {
    if loaded then DetailsOf(site.PageAt(info.detailUrl.value)) else NoDetails
  }

  /** The records of the visited hotels, given whether each one loaded. */
  function Visited(site: Session, loaded: seq<bool>, todo: seq<Listing>): (r: seq<Details>)
    requires |loaded| == |todo| && forall i | 0 <= i < |todo| :: todo[i].detailUrl.Some?
    ensures |r| == |todo|
  {
    seq(|todo|, i requires 0 <= i < |todo| => DetailOf(site, loaded[i], todo[i]))
  }

  lemma SnocThenRest<T>(done: seq<T>, x: T, rest: seq<T>, whole: seq<T>, total: seq<T>)
    requires whole == [x] + rest && done + whole == total
    ensures done + [x] + rest == total
  {
    assert done + [x] + rest == done + ([x] + rest);
  }

  /** The run of `n > 0` hotels is the first hotel's outcome, then the
      run from the count that hotel leaves. */
  lemma LoadRunCons(fails: nat -> bool, g: nat, n: nat, isList: bool)
    requires n > 0
    ensures LoadRun(fails, g, n, isList)
      == [Failures(fails, g, LOAD_RETRIES) < LOAD_RETRIES] + LoadRun(fails, AfterHotel(fails, g, isList), n - 1, isList)
  {
  }

  /** One more visited hotel appends its record. */
  lemma VisitedSnoc(site: Session, flags: seq<bool>, b: bool, todo: seq<Listing>, i: nat, d: Details)
    requires |flags| == i < |todo| && forall k | 0 <= k < |todo| :: todo[k].detailUrl.Some?
    requires d == DetailOf(site, b, todo[i])
    ensures Visited(site, flags + [b], todo[..i + 1]) == Visited(site, flags, todo[..i]) + [d]
  {
    var v, w := Visited(site, flags + [b], todo[..i + 1]), Visited(site, flags, todo[..i]) + [d];
    forall j | 0 <= j < i + 1 ensures v[j] == w[j] {
      if j < i {
        assert (flags + [b])[j] == flags[j] && todo[..i + 1][j] == todo[..i][j];
      }
    }
  }

  /** One hotel of the detail loop keeps the load outcomes so far in step
      with the whole run. */
  lemma FlagsStep(flags: seq<bool>, b: bool, fails: nat -> bool, g0: nat, g: nat, next: nat,
                  n: nat, rest: nat, isList: bool)
    requires |flags| < n && rest == n - |flags| - 1
    requires b == (Failures(fails, g, LOAD_RETRIES) < LOAD_RETRIES) && next == AfterHotel(fails, g, isList)
    requires flags + LoadRun(fails, g, n - |flags|, isList) == LoadRun(fails, g0, n, isList)
    ensures flags + [b] + LoadRun(fails, next, rest, isList) == LoadRun(fails, g0, n, isList)
  {
    var m := n - |flags|;
    LoadRunCons(fails, g, m, isList);
    SnocThenRest(flags, b, LoadRun(fails, next, rest, isList),
      LoadRun(fails, g, m, isList), LoadRun(fails, g0, n, isList));
  }

  /** Each visited record is `{}` or its card's page, and it is the page
      when that hotel's detail load succeeded. */
  lemma VisitedFacts(site: Session, loaded: seq<bool>, todo: seq<Listing>)
    requires |loaded| == |todo| && forall k | 0 <= k < |todo| :: todo[k].detailUrl.Some?
    ensures forall i | 0 <= i < |todo| :: FromPage(Visited(site, loaded, todo)[i], site, todo[i])
    ensures (forall i | 0 <= i < |todo| :: loaded[i]) ==>
      forall i | 0 <= i < |todo| :: Visited(site, loaded, todo)[i] == DetailsOf(site.PageAt(todo[i].detailUrl.value))
  {
    var v := Visited(site, loaded, todo);
    forall i | 0 <= i < |todo| ensures v[i] == DetailOf(site, loaded[i], todo[i]) {
    }
  }

  /** The records of a whole detail loop: each is `{}` or its card's page,
      and each is its page when no `get` raises. */
  lemma VisitedRun(site: Session, g: nat, todo: seq<Listing>, isList: bool)
    requires forall k | 0 <= k < |todo| :: todo[k].detailUrl.Some?
    ensures var v := Visited(site, LoadRun(site.getFails, g, |todo|, isList), todo);
      && (forall i | 0 <= i < |todo| :: FromPage(v[i], site, todo[i]))
      && ((forall n: nat :: !site.getFails(n)) ==>
           forall i | 0 <= i < |todo| :: v[i] == DetailsOf(site.PageAt(todo[i].detailUrl.value)))
  {
    VisitedFacts(site, LoadRun(site.getFails, g, |todo|, isList), todo);
    if forall n: nat :: !site.getFails(n) {
      LoadRunAll(site.getFails, g, |todo|, isList);
    }
  }

  class KayakHotelScraper {
    const city: string
    /** `check_in_date.strftime('%Y-%m-%d')`. */
    const checkIn: string
    const checkOut: string
    const baseUrl: string
    const driver: Session
    /** Python's `float` on a rating text; None where it raises. */
    const parseFloat: string -> Option<real>
    var hotelsData: HotelsData

    constructor (city: string, checkIn: string, checkOut: string, driver: Session,
                 parseFloat: string -> Option<real>)
      ensures this.city == city && this.checkIn == checkIn && this.checkOut == checkOut
      ensures this.driver == driver && this.parseFloat == parseFloat
      ensures baseUrl == BASE_URL && hotelsData == Records([])
    {
      this.city := city;
      this.checkIn := checkIn;
      this.checkOut := checkOut;
      this.driver := driver;
      this.parseFloat := parseFloat;
      baseUrl := BASE_URL;
      hotelsData := Records([]);
    }

    function ConstructSearchUrl(): string {
      SearchUrl(baseUrl, city, checkIn, checkOut)
    }

    /** load_page: the attempt loop, sleeping `2 ** attempt` seconds after
        every failed attempt but the last. */
    method LoadPage(url: string, maxRetries: int) returns (ok: bool)
      modifies driver
      ensures var n := Failures(driver.getFails, old(driver.gets), maxRetries);
        && ok == (n < maxRetries)
        && driver.gets == old(driver.gets) + (if ok then n + 1 else n)
        && driver.page == (if ok then driver.PageAt(url) else old(driver.page))
        && driver.naps == old(driver.naps) + Backoff(if ok || n == 0 then n else n - 1)
      ensures driver.refreshes == old(driver.refreshes) && driver.heightReads == old(driver.heightReads)
      ensures driver.scrolls == old(driver.scrolls)
    {
      ghost var fails, g0, naps0 := driver.getFails, driver.gets, driver.naps;
      var attempt: nat := 0;
      while attempt < maxRetries
        invariant attempt == 0 || attempt < maxRetries
        invariant Failures(fails, g0, maxRetries) == FirstGood(fails, g0, maxRetries, attempt)
        invariant driver.gets == g0 + attempt
        invariant driver.page == old(driver.page)
        invariant driver.naps == naps0 + Backoff(attempt)
        invariant driver.refreshes == old(driver.refreshes) && driver.heightReads == old(driver.heightReads)
        invariant driver.scrolls == old(driver.scrolls)
        decreases maxRetries - attempt
      {
        var loaded := driver.Get(url);
        if loaded {
          FirstGoodStop(fails, g0, maxRetries, attempt);
          return true;
        }
        FirstGoodSkip(fails, g0, maxRetries, attempt);
        if attempt == maxRetries - 1 {
          FirstGoodBound(fails, g0, maxRetries, attempt + 1);
          return false;
        }
        driver.Sleep(Pow2(attempt));
        BackoffSnoc(naps0, attempt);
        attempt := attempt + 1;
      }
      return false;
    }

    /** extract_hotel_details: `{}` when the detail page does not load,
        otherwise the non-empty lists the page gives. */
    method ExtractHotelDetails(detailUrl: string) returns (d: Details)
      modifies driver
      ensures d == if Failures(driver.getFails, old(driver.gets), LOAD_RETRIES) < LOAD_RETRIES
        then DetailsOf(driver.PageAt(detailUrl)) else NoDetails
      ensures d == NoDetails || d == DetailsOf(driver.PageAt(detailUrl))
      ensures driver.gets == old(driver.gets) + LoadsUsed(driver.getFails, old(driver.gets))
    {
      var ok := LoadPage(detailUrl, LOAD_RETRIES);
      if !ok {
        return NoDetails;
      }
      var page := driver.page;
      var images := ExtractDetailPageImages(page);
      var rooms := ExtractRoomDetails(page);
      var amenities := ExtractKayakAmenities(page);
      d := NoDetails;
      if images != [] {
        d := d.(detailImages := Set(images));
      }
      if rooms != [] {
        d := d.(rooms := Set(rooms));
      }
      if amenities != [] {
        d := d.(amenities := Set(amenities));
      }
    }

    /** The rest of process_hotel once the details are read: while
        `hotels_data` is a list the hotel is appended and the search page
        reloaded; a dict is left as it is and nothing is loaded. */
    method KeepHotel(h: Hotel, searchUrl: string)
      modifies this, driver
      ensures hotelsData == Appended(old(hotelsData), [h])
      ensures driver.gets == if old(hotelsData).Records?
        then old(driver.gets) + LoadsUsed(driver.getFails, old(driver.gets)) else old(driver.gets)
    {
      if hotelsData.Records? {
        hotelsData := Records(hotelsData.hotels + [h]);
        var _ := LoadPage(searchUrl, LOAD_RETRIES);
      }
    }

    /** One hotel of the detail loop. While `hotels_data` is a list the
        hotel is appended and the search page reloaded; once format_output
        has made it a dict, `append` raises and the hotel is skipped. */
    method ProcessHotel(info: Listing, searchUrl: string) returns (d: Details)
      requires info.detailUrl.Some?
      modifies this, driver
      ensures d == DetailOf(driver, Failures(driver.getFails, old(driver.gets), LOAD_RETRIES) < LOAD_RETRIES, info)
      ensures driver.gets == AfterHotel(driver.getFails, old(driver.gets), old(hotelsData).Records?)
      ensures hotelsData == Appended(old(hotelsData), [Merge(info, d)])
    {
      d := ExtractHotelDetails(info.detailUrl.value);
      KeepHotel(Merge(info, d), searchUrl);
    }

    /** One pass of the detail loop: hotel `i` is processed, and the loop's
        account of load outcomes, records and list moves on by one. */
    method ProcessNext(todo: seq<Listing>, i: nat, searchUrl: string, ghost h0: HotelsData,
                       ghost flags: seq<bool>, ghost details: seq<Details>, ghost g0: nat, ghost isList: bool)
      returns (d: Details, ghost b: bool)
      requires forall k | 0 <= k < |todo| :: todo[k].detailUrl.Some?
      requires i < |todo| && |details| == i && |flags| == i && hotelsData.Records? == isList
      requires flags + LoadRun(driver.getFails, driver.gets, |todo| - i, isList) == LoadRun(driver.getFails, g0, |todo|, isList)
      requires details == Visited(driver, flags, todo[..i])
      requires hotelsData == Appended(h0, Merged(todo[..i], details))
      modifies this, driver
      ensures hotelsData.Records? == isList
      ensures flags + [b] + LoadRun(driver.getFails, driver.gets, |todo| - (i + 1), isList) == LoadRun(driver.getFails, g0, |todo|, isList)
      ensures details + [d] == Visited(driver, flags + [b], todo[..i + 1])
      ensures hotelsData == Appended(h0, Merged(todo[..i + 1], details + [d]))
    {
      ghost var g := driver.gets;
      b := Failures(driver.getFails, g, LOAD_RETRIES) < LOAD_RETRIES;
      d := ProcessHotel(todo[i], searchUrl);
      FlagsStep(flags, b, driver.getFails, g0, g, driver.gets, |todo|, |todo| - (i + 1), isList);
      VisitedSnoc(driver, flags, b, todo, i, d);
      MergedSnoc(todo, details, d, i);
      AppendedSnoc(h0, Merged(todo[..i], details), Merge(todo[i], d));
    }

    /** The detail loop of scrape_hotels. */
    method ProcessHotels(todo: seq<Listing>, searchUrl: string) returns (ghost details: seq<Details>)
      requires forall i | 0 <= i < |todo| :: todo[i].detailUrl.Some?
      modifies this, driver
      ensures details == Visited(driver, LoadRun(driver.getFails, old(driver.gets), |todo|, old(hotelsData).Records?), todo)
      ensures forall i | 0 <= i < |todo| :: FromPage(details[i], driver, todo[i])
      ensures (forall n: nat :: !driver.getFails(n)) ==>
        forall i | 0 <= i < |todo| :: details[i] == DetailsOf(driver.PageAt(todo[i].detailUrl.value))
      ensures hotelsData == Appended(old(hotelsData), Merged(todo, details))
    {
      details := [];
      ghost var flags: seq<bool> := [];
      ghost var fails, g0, isList := driver.getFails, driver.gets, hotelsData.Records?;
      var i := 0;
      while i < |todo|
        invariant 0 <= i <= |todo| && |details| == i && |flags| == i
        invariant hotelsData.Records? == isList
        invariant flags + LoadRun(fails, driver.gets, |todo| - i, isList) == LoadRun(fails, g0, |todo|, isList)
        invariant details == Visited(driver, flags, todo[..i])
        invariant hotelsData == Appended(old(hotelsData), Merged(todo[..i], details))
      {
        var d, b := ProcessNext(todo, i, searchUrl, old(hotelsData), flags, details, g0, isList);
        details, flags := details + [d], flags + [b];
        i := i + 1;
      }
      assert todo[..i] == todo;
      assert flags == LoadRun(fails, g0, |todo|, isList);
      VisitedRun(driver, g0, todo, isList);
    }

    /** The listing and detail loops of scrape_hotels, once the search page
        shows `cards`. */
    method VisitCards(cards: seq<Item>, limit: Option<int>, searchUrl: string) returns (ghost details: seq<Details>)
      modifies this, driver
      ensures var todo := ToProcess(Slice(cards, limit), parseFloat);
        && (forall i | 0 <= i < |todo| :: todo[i].detailUrl.Some?)
        && details == Visited(driver, LoadRun(driver.getFails, old(driver.gets), |todo|, old(hotelsData).Records?), todo)
        && (forall i | 0 <= i < |todo| :: FromPage(details[i], driver, todo[i]))
        && ((forall n: nat :: !driver.getFails(n)) ==>
             forall i | 0 <= i < |todo| :: details[i] == DetailsOf(driver.PageAt(todo[i].detailUrl.value)))
        && hotelsData == Appended(old(hotelsData), Merged(todo, details))
    {
      var todo := CollectListings(Slice(cards, limit), parseFloat);
      ToProcessLinked(Slice(cards, limit), parseFloat);
      details := ProcessHotels(todo, searchUrl);
    }

    /** format_output: the list becomes the value of "hotels" in a dict with
        one page of pagination and the scraping date, time and base URL. */
    method FormatOutput(date: string, time: string)
      modifies this
      ensures hotelsData == Formatted(city, old(hotelsData), 1, 1, date, time, baseUrl)
    {
      hotelsData := Formatted(city, hotelsData, 1, 1, date, time, baseUrl);
    }

    /** scrape_hotels with the clock's date and time as parameters: `[]` when
        the search page does not load or shows no card; otherwise the
        formatted dict around every kept hotel, merged with its details. */
    method ScrapeHotels(limit: Option<int>, date: string, time: string)
      returns (r: HotelsData, ghost details: seq<Details>, ghost start: nat)
      modifies this, driver
      ensures start == old(driver.gets) + LoadsUsed(driver.getFails, old(driver.gets))
      ensures var url := SearchUrl(baseUrl, city, checkIn, checkOut);
        var cards := WaitForElements(Live(driver.PageAt(url)), HOTEL_CARD);
        if Failures(driver.getFails, old(driver.gets), LOAD_RETRIES) >= LOAD_RETRIES
           || cards.Raise? || cards.value == []
        then r == Records([]) && hotelsData == old(hotelsData)
        else
          var todo := ToProcess(Slice(cards.value, limit), parseFloat);
          && (forall i | 0 <= i < |todo| :: todo[i].detailUrl.Some?)
          && details == Visited(driver, LoadRun(driver.getFails, start, |todo|, old(hotelsData).Records?), todo)
          && (forall i | 0 <= i < |todo| :: FromPage(details[i], driver, todo[i]))
          && ((forall n: nat :: !driver.getFails(n)) ==>
               forall i | 0 <= i < |todo| :: details[i] == DetailsOf(driver.PageAt(todo[i].detailUrl.value)))
          && r == hotelsData
          && hotelsData == Formatted(city, Appended(old(hotelsData), Merged(todo, details)),
               1, 1, date, time, baseUrl)
    {
      details := [];
      var searchUrl := ConstructSearchUrl();
      var ok := LoadPage(searchUrl, LOAD_RETRIES);
      start := driver.gets;
      if !ok {
        assert Failures(driver.getFails, old(driver.gets), LOAD_RETRIES) >= LOAD_RETRIES;
        return Records([]), details, start;
      }
      var found := WaitForElements(Live(driver.page), HOTEL_CARD);
      assert found == WaitForElements(Live(driver.PageAt(SearchUrl(baseUrl, city, checkIn, checkOut))), HOTEL_CARD);
      if found.Raise? || found.value == [] {
        return Records([]), details, start;
      }
      details := VisitCards(found.value, limit, searchUrl);
      FormatOutput(date, time);
      return hotelsData, details, start;
    }
  }

  lemma MergedSnoc(todo: seq<Listing>, details: seq<Details>, d: Details, i: nat)
    requires |details| == i < |todo|
    ensures Merged(todo[..i + 1], details + [d]) == Merged(todo[..i], details) + [Merge(todo[i], d)]
  {
  }
}
