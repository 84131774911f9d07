# Hotel scraper: a Dafny model

This project models the data-handling core of a hotel search site. The site has three parts:

- a Selenium scraper for Kayak hotel pages;
- a Next.js front end that filters and sorts a hotel list;
- a small script that walks the repository and skips ignored paths.

The model covers these pieces of source:

- **The extractor classes** in `scraper/src/extractors/`. They read:
  - a price: currency, amount, per-night flag, total, taxes;
  - policies: cancellation, check-in, check-out and special conditions;
  - amenities: general, room and services;
  - bed information: count, type and extra text;
  - the room cards;
  - a search card's basic information.
- **The retry and wait helpers** in `scraper/src/utils/retry.py`.
- **`KayakHotelScraper`** in `scraper/src/scrapers/kayak.py`:
  - the search URL;
  - the page-load retry loop with exponential backoff;
  - the room, amenity and image extractors of a detail page;
  - the two-phase `scrape_hotels`;
  - `format_output`.
- **The legacy `KayakHotelScraper`** in `scraper/src/hotel_scraper.py`:
  - the fixed Errachidia URL;
  - `get_page` with its scroll-until-the-height-stops loop;
  - the `*_safe` helpers;
  - the card and detail extraction;
  - `refresh_and_retry`.
- **`filteredHotels` and `sortedHotels`** in `frontend/src/app/components/hotel-search.tsx`. This covers JavaScript's `parseInt` and an insertion sort, which stands in for `Array.prototype.sort`.
- **`ProjectAnalyzer.should_ignore`** in `analyze_project.py`.

The browser is modelled in two ways:

- **The DOM is a value** (module `Dom`):
  - An element has a text, its attributes, and two lookup tables:
    - the outcome of `find_element` for each selector: found, missing, or stale;
    - the list of children that `find_elements` returns for each selector.
  - Each child is either attached or detached.
  - The exceptions Selenium raises become the `Outcome` datatype.
- **The WebDriver session is a class** (module `Browser`). Its fields are:
  - the pages of the site;
  - the page currently loaded;
  - counters of `get`, `refresh`, height reads and scrolls;
  - the log of sleeps.

  Which `get` or `refresh` fails is a parameter, and so is the sequence of page heights. The two scraper classes hold a session and update it through its methods.

Python built-ins live in `PyStr`: `strip`, `lower`, `split()`, `split(c)`, `replace`, `isdigit` and digit filtering. Generic list facts live in `Seqs`: filter-map, last match, and first occurrence with deduplication.

Where the project's own description and its code disagree, the model follows the code:

- "Airport Shuttle" is filed as a room amenity, because "airport" contains the room keyword "air" (`Amenities.AirportShuttleIsRoom`).
- "2 queen beds" gets no bed count: the number must be followed by a word containing "bed" (`Room.QueenBedsNoCount`).
- **Repeated amenities.** `AmenitiesExtractor` does not remove repeated amenities (`Amenities.Repeated`). Only the Kayak page extractor deduplicates amenities (`KayakPage.AmenityListSpec`).
- **Image deduplication.** Gallery images and detail-page images are not deduplicated against each other (`Kayak.MergeSpec`). Only the detail-page images are deduplicated by URL.
- **`source_url`.** The `source_url` of the formatted output is the base URL, not the search URL (`Kayak.KayakHotelScraper.FormatOutput`).
- **The legacy search URL** always searches Errachidia, whatever the city (`HotelScraper.SearchUrlIsErrachidia`).
- **The limit.**
  - A limit of 0 keeps every card in the legacy scraper, because `if limit:` is false for 0.
  - A limit of 0 keeps no card in `kayak.py` (`HotelScraper.LimitZero`).
- **A repeated scrape.** After `format_output`, `hotels_data` is a dict. A second `scrape_hotels` on the same object then adds no hotel, because `append` on a dict fails inside the per-hotel `try`, and `format_output` wraps the old dict once more (`Kayak.KayakHotelScraper.ScrapeHotels`).
- **One legacy hotel per scrape.** The legacy `scrape_hotels` opens each detail page in the same browser while it still loops over the search cards.
  - Once one detail page has loaded, every later card is a stale reference. Its name lookup raises after three attempts, so the card gives no dict and is skipped.
  - So a legacy scrape keeps at most one hotel: that of the first kept card whose detail page loads (`HotelScraper.OneHotelOnly`, `HotelScraper.KayakHotelScraper.ProcessCards`).
  - `kayak.py` collects every listing before it opens any detail page, so it does not lose them.
- **Nameless legacy cards.** A legacy card with no name still yields a dict. It is dropped only because its missing `detail_url` is falsy (`HotelScraper.NamelessCard`).
- **A blank freebie.** A legacy room whose freebie text is blank keeps `[""]` as its inclusions, and the room is kept (`HotelScraper.BlankFreebieKept`).
- **Prices with a comma.** The front end drops only the first "$" and stops `parseInt` at the first non-digit, so "$1,200" sorts as 1.
- **Suffixes in `should_ignore`.**
  - They are tested against the whole path, so `my_analyze_project.py` is skipped too (`AnalyzeProject.SuffixMatchesLongerName`).
  - The suffix test is case-sensitive (`AnalyzeProject.UpperCaseSuffixKept`).

## Model

| member | source | states |
|---|---|---|
| Dom.Probe | scraper/src/utils/retry.py:12-18 | `find_element` on a detached element is stale, and a selector the element does not have is missing |
| Dom.FindElement | scraper/src/scrapers/kayak.py:101 | `find_element` succeeds exactly when the lookup finds an element, and raises NoSuchElement exactly when it is missing |
| Dom.FindElements | scraper/src/scrapers/kayak.py:123 | `find_elements` raises exactly on a detached parent, and gives `[]` for a selector the element does not have |
| Dom.Text | scraper/src/extractors/policies.py:24 | reading `.text` raises exactly on a detached element |
| Dom.Attr | scraper/src/extractors/basic_info.py:22 | `get_attribute` gives a value exactly when the attribute exists |
| Dom.StrippedText | scraper/src/extractors/amenities.py:22 | the stripped text is available exactly for an attached element |
| Browser.Session.constructor | scraper/src/scrapers/kayak.py:32-38 | a fresh session has an empty page, zero counters and no sleeps |
| Browser.Session.PageAt | scraper/src/scrapers/kayak.py:68 | an address the site does not serve loads an empty page |
| Browser.Session.Get | scraper/src/scrapers/kayak.py:68 | `driver.get` counts one load; it either fails and keeps the old page, or shows the requested page; nothing else changes |
| Browser.Session.Refresh | scraper/src/hotel_scraper.py:426 | `driver.refresh` counts one refresh and reports its success; the page and the other counters stay |
| Browser.Session.ReadHeight | scraper/src/hotel_scraper.py:137 | reading `scrollHeight` gives the next height of the page and counts one read |
| Browser.Session.ScrollToBottom | scraper/src/hotel_scraper.py:140 | scrolling counts one scroll and changes nothing else |
| Browser.Session.Sleep | scraper/src/scrapers/kayak.py:84 | a sleep is appended to the sleep log and changes nothing else |
| PyStr.Strip | scraper/src/extractors/price.py:17-18 | `str.strip` gives no longer a text with no leading or trailing white space, empty exactly for an all-space text |
| PyStr.StripSlice | scraper/src/extractors/price.py:17-18 | the stripped text is a slice of the text with only white space cut on either side |
| PyStr.StripIdempotent | scraper/src/extractors/price.py:17-18 | stripping twice is stripping once |
| PyStr.Lower | scraper/src/extractors/price.py:25 | `str.lower` keeps the length |
| PyStr.LowerSpec | scraper/src/extractors/price.py:25 | `str.lower` turns each capital letter into its small letter, keeps every other character, and leaves no capital |
| PyStr.LowerIdempotent | scraper/src/extractors/price.py:25 | lowering twice is lowering once |
| PyStr.Split | scraper/src/extractors/price.py:20 | `str.split()` gives non-empty pieces with no white space |
| PyStr.SplitJoinSpace | scraper/src/extractors/room.py:28 | splitting words joined by single spaces gives the words back |
| PyStr.SplitOn | analyze_project.py:13 | `str.split(c)` gives at least one piece, none holding `c` |
| PyStr.JoinSplitOn | analyze_project.py:13 | joining the pieces of `s.split(c)` with `c` gives `s` back |
| PyStr.SplitOnJoin | analyze_project.py:13 | splitting pieces joined by `c` gives the pieces back, when none holds `c` |
| PyStr.ShowValue | scraper/src/extractors/room.py:31 | `int()` of a number's decimal digits gives the number back |
| PyStr.DigitsOnly | scraper/src/scrapers/kayak.py:280 | `''.join(filter(str.isdigit, s))` holds only digits and is no longer than `s` |
| PyStr.DigitsOnlyAppend | scraper/src/scrapers/kayak.py:280 | the digits of a concatenation are the digits of the parts, in order |
| PyStr.ReplaceChar | scraper/src/scrapers/kayak.py:43 | `str.replace` of one character keeps the length |
| PyStr.ReplaceCharKeeps | scraper/src/scrapers/kayak.py:43 | no replaced character is left, and every other character is in the result exactly when it was in the input |
| PyStr.NonEmpty | scraper/src/extractors/amenities.py:23 | a text is kept exactly when it is not empty |
| Seqs.FilterMap | scraper/src/extractors/room.py:51-87 | collecting the results a step yields is no longer than its input |
| Seqs.FilterMapMembers | scraper/src/extractors/room.py:82-83 | a value is collected exactly when some input element yields it |
| Seqs.FilterMapAll | scraper/src/extractors/room.py:82-83 | when every element yields a value, nothing is dropped |
| Seqs.LastMatchSpec | scraper/src/extractors/policies.py:24-32 | overwriting a field on every match leaves the last matching element, or None exactly when nothing matches |
| Seqs.AddUniqueSpec | scraper/src/scrapers/kayak.py:387-392 | appending only unseen keys gives each key once, as its first occurrence, in first-occurrence order |
| Retry.FindElementWithRetry | scraper/src/utils/retry.py:8-18 | the loop returns what the retry definition gives, after that many lookups and one sleep of `RETRY_DELAY` between consecutive lookups |
| Retry.RetryFindsFirst | scraper/src/utils/retry.py:10-12 | after stale attempts, the first attempt that finds the element returns it |
| Retry.RetryMissingStops | scraper/src/utils/retry.py:17-18 | a missing element returns None at once, without further attempts |
| Retry.RetryAllStale | scraper/src/utils/retry.py:13-15 | when every attempt is stale, the last one re-raises after exactly `max_retries` lookups |
| Retry.RetrySkipsStale | scraper/src/utils/retry.py:13-16 | stale attempts are skipped and each costs one lookup |
| Retry.RetryBounded | scraper/src/utils/retry.py:10 | there are at most `max_retries` lookups, and no attempt at all gives None |
| Retry.FindWithRetry | scraper/src/hotel_scraper.py:109-119 | with a fixed element, the retry gives the element exactly when it is found, and None exactly when it is missing |
| Retry.WaitForElement | scraper/src/utils/retry.py:20-27 | a present element is returned, a missing one gives None, and a stale parent raises |
| Retry.WaitForElements | scraper/src/utils/retry.py:29-36 | the list of children, `[]` when there is none, raising exactly on a detached parent |
| Retry.WaitForPageLoad | scraper/src/utils/retry.py:38-45 | the wait succeeds exactly when some observed ready state is "complete" |
| Retry.WaitForElementQuiet | scraper/src/hotel_scraper.py:99-107 | the legacy wait gives an element exactly when the lookup finds it, and agrees with the shared wait then |
| Price.ParseTokens | scraper/src/extractors/price.py:20-26 | currency and amount exist exactly when there are two or more words, and together spell the first word; per-night is set exactly when the text also mentions "night" |
| Price.SubText | scraper/src/extractors/price.py:28-36 | a sub-element's stripped text, None when it is missing, an exception when it is stale |
| Price.PriceCore | scraper/src/extractors/price.py:17-36 | an empty text gives the empty dict; otherwise the head fields come from the tokens and the total and taxes from the sub-elements, with the taxes lost when the total lookup raises |
| Price.ExtractEmpty | scraper/src/extractors/price.py:7-18 | no element, or a blank one, gives the empty price dict whatever its sub-elements |
| Price.ExtractTokens | scraper/src/extractors/price.py:5-26 | `PriceExtractor.extract` reads currency, amount and the per-night flag as the tokens of the stripped text say |
| Price.ExtractSubElements | scraper/src/extractors/price.py:28-36 | the total is the found total's stripped text; the taxes are found taxes' stripped text, unless the total lookup raised |
| Price.ParseExample | scraper/src/extractors/price.py:20-26 | "$N per night" parses as currency "$", amount N, per night |
| Price.ExtractExample | scraper/src/extractors/price.py:5-26 | a price element reading "$N per night" gives currency "$", amount N, per night |
| Price.ExtractOneToken | scraper/src/extractors/price.py:21 | a single word such as "$120" gives no currency, amount or per-night flag |
| Policies.Classify | scraper/src/extractors/policies.py:24-32 | a policy is cancellation, check-in or check-out exactly when its lowered text first contains that word in this order of precedence |
| Policies.ExtractPolicies | scraper/src/extractors/policies.py:6-39 | the extractor fills the policy dict from the room's policy elements |
| Policies.FileAll | scraper/src/extractors/policies.py:22-34 | the loop gives the policy dict of its element list |
| Policies.FilePolicy | scraper/src/extractors/policies.py:24-32 | one pass of the `if`/`elif` chain files a text |
| Policies.PoliciesOfSpec | scraper/src/extractors/policies.py:22-34 | each single-valued policy is the last attached text of its kind, and the special conditions are all other texts in order |
| Policies.OneBucketEach | scraper/src/extractors/policies.py:22-34 | every attached text reaches a bucket of its kind: a keyed text leaves its key set to a text of that kind, and any other text is a special condition; each bucket holds only attached texts of its own kind |
| Policies.CancellationBeatsCheckIn | scraper/src/extractors/policies.py:25-28 | a text mentioning both cancellation and check-in is filed as cancellation only |
| Policies.StaleSkipped | scraper/src/extractors/policies.py:33-34 | a stale policy element changes nothing |
| Policies.NoElements | scraper/src/extractors/policies.py:16-22 | a room with no policy elements gives the empty policy dict |
| Amenities.CategorizeAll | scraper/src/extractors/amenities.py:20-34 | the loop gives the amenity dict of its element list |
| Amenities.ReadAmenity | scraper/src/extractors/amenities.py:21-34 | one pass reads one element and skips it when stale |
| Amenities.FileAmenity | scraper/src/extractors/amenities.py:22-32 | one pass skips an empty text and otherwise files it by keyword |
| Amenities.ExtractAmenities | scraper/src/extractors/amenities.py:6-39 | the extractor gives the amenity dict of the page |
| Amenities.AmenitiesOfSpec | scraper/src/extractors/amenities.py:20-34 | each list holds every attached non-empty text of its category, in page order and with repetitions |
| Amenities.AmenitiesCount | scraper/src/extractors/amenities.py:20-34 | every attached non-empty text lands in exactly one list |
| Amenities.Repeated | scraper/src/extractors/amenities.py:25-32 | a text that appears twice is listed twice |
| Amenities.FreeWifiIsGeneral | scraper/src/extractors/amenities.py:25-27 | "Free WiFi" is a general amenity |
| Amenities.KingBedIsRoom | scraper/src/extractors/amenities.py:28-30 | "King bed" is a room amenity |
| Amenities.AirportShuttleIsRoom | scraper/src/extractors/amenities.py:28-30 | "Airport Shuttle" is a room amenity, because "airport" contains "air" |
| Room.BedPairFrom | scraper/src/extractors/room.py:28-33 | the scan finds the first position where a digit word is followed by a word containing "bed", or none |
| Room.ParseBedText | scraper/src/extractors/room.py:28-33 | the token loop gives the first count and bed type |
| Room.ExtractBedInfo | scraper/src/extractors/room.py:8-42 | the extractor gives the bed dict of the room's bed elements |
| Room.ParseBeds | scraper/src/extractors/room.py:23-37 | the loop over the bed elements gives their bed dict |
| Room.ReadBed | scraper/src/extractors/room.py:24-37 | one pass reads one element and skips it when stale |
| Room.ReadBedText | scraper/src/extractors/room.py:26-35 | one pass parses a bed text or keeps it as extra information |
| Room.BedsOfExtra | scraper/src/extractors/room.py:34-35 | the extra information is every attached text without "bed", in order |
| Room.BedsOfPair | scraper/src/extractors/room.py:26-33 | count and type come from the last bed text that parses |
| Room.BedParseSound | scraper/src/extractors/room.py:28-33 | a parsed pair is the first digit word followed by a "bed" word, with the remaining words as the type |
| Room.BedsInRoom | scraper/src/extractors/room.py:28-33 | "N beds in room" parses as count N of type "beds in room" |
| Room.QueenBedsNoCount | scraper/src/extractors/room.py:30 | "N queen beds" gives no count, because "queen" does not contain "bed" |
| Room.UnparsedBedIgnored | scraper/src/extractors/room.py:26-33 | a bed text with no pair changes nothing |
| Room.ProcessCard | scraper/src/extractors/room.py:52-87 | one room card gives its record, or nothing when a lookup raises |
| Room.ExtractRooms | scraper/src/extractors/room.py:45-92 | the extractor gives the records of the page's room cards |
| Room.AddCard | scraper/src/extractors/room.py:51-87 | one pass appends the card's record when it has one |
| Room.CardSkippedIff | scraper/src/extractors/room.py:60-87 | a card is skipped exactly when its type, price or provider lookup is stale |
| Room.CardFields | scraper/src/extractors/room.py:62-80 | a record holds the type text, the parsed price exactly when a price element is found, and the card's bed info and policies |
| Room.RoomsKept | scraper/src/extractors/room.py:82-87 | the rooms are the records of the cards that did not raise, and every card is kept when none raises |
| BasicInfo.Field | scraper/src/extractors/basic_info.py:31-36 | an optional field is the stripped text, None when missing, an exception when stale |
| BasicInfo.Stars | scraper/src/extractors/basic_info.py:53 | the stars are the first word of the text, None exactly for an empty text |
| BasicInfo.ExtractOptional | scraper/src/extractors/basic_info.py:31-63 | the method gives the optional fields of the card |
| BasicInfo.ExtractRatings | scraper/src/extractors/basic_info.py:66-80 | the method gives the ratings of the card |
| BasicInfo.ExtractBasicInfo | scraper/src/extractors/basic_info.py:12-87 | the extractor gives the card's basic information |
| BasicInfo.OptionalRaise | scraper/src/extractors/basic_info.py:31-63 | the optional fields raise exactly when one of their lookups is stale |
| BasicInfo.RatingsRaise | scraper/src/extractors/basic_info.py:66-80 | the ratings raise exactly when one of their lookups is stale |
| BasicInfo.NameRequired | scraper/src/extractors/basic_info.py:18-28 | the card gives a dict exactly when its name is found and no optional lookup is stale |
| BasicInfo.NameAndUrl | scraper/src/extractors/basic_info.py:19-22 | the name is the stripped link text and the URL its `href` |
| BasicInfo.MissingOptional | scraper/src/extractors/basic_info.py:31-63 | a missing optional field is None, and a found one is its stripped text |
| BasicInfo.StarsToken | scraper/src/extractors/basic_info.py:49-55 | the stars are the first word of the found stars text |
| BasicInfo.RatingsTogether | scraper/src/extractors/basic_info.py:66-80 | rating and reviews are set together, when both elements are found; the review count is set exactly when the reviews hold both parentheses |
| BasicInfo.ReviewCountSpec | scraper/src/extractors/basic_info.py:76-78 | the count is the text after the first "(" up to the next parenthesis |
| BasicInfo.ReviewCountExample | scraper/src/extractors/basic_info.py:76-78 | "… (N)" gives the count N |
| Kayak.SearchUrl | scraper/src/scrapers/kayak.py:40-44 | the search URL is the base, the city, the dates and 30 fixed characters |
| Kayak.SearchUrlPieces | scraper/src/scrapers/kayak.py:40-44 | after the base, the URL's path segments are the hyphenated city with "-c52508", the two dates and "2adults?sort=rank_a" |
| Kayak.FirstGoodSpec | scraper/src/scrapers/kayak.py:64-85 | the load loop stops at the first `get` that does not fail, or after `max_retries` failures |
| Kayak.LoadSucceedsIff | scraper/src/scrapers/kayak.py:64-85 | loading succeeds exactly when one of the first `max_retries` attempts succeeds, and every attempt before it failed |
| Kayak.BackoffDoubles | scraper/src/scrapers/kayak.py:84 | each backoff sleep is twice the one before |
| Kayak.KeyIfAny | scraper/src/scrapers/kayak.py:234-248 | a key is set exactly when its list is non-empty |
| Kayak.MergeSpec | scraper/src/scrapers/kayak.py:437-442 | a merged hotel appends the detail images and sets rooms and amenities exactly when the page has some; a failed page adds nothing |
| Kayak.MergedOnce | scraper/src/scrapers/kayak.py:434-442 | each merged hotel keeps its name, URL and gallery images |
| Kayak.ToProcessShorter | scraper/src/scrapers/kayak.py:421-426 | no more hotels are visited than there are cards |
| Kayak.ToProcessMembers | scraper/src/scrapers/kayak.py:421-426 | a listing is visited exactly when some card yields it with a truthy detail URL |
| Kayak.ToProcessLinked | scraper/src/scrapers/kayak.py:425-426 | every visited listing has a truthy detail URL |
| Kayak.Slice | scraper/src/scrapers/kayak.py:421 | `cards[:limit]` is a prefix of the cards with Python's length for both signs of the limit, and all of them without one |
| Kayak.CollectListings | scraper/src/scrapers/kayak.py:421-426 | the card loop collects the listings to visit |
| Kayak.KayakHotelScraper.constructor | scraper/src/scrapers/kayak.py:22-30 | a new scraper holds its search, the Kayak base URL and an empty list |
| Kayak.KayakHotelScraper.LoadPage | scraper/src/scrapers/kayak.py:64-85 | `load_page` succeeds exactly when an attempt within the bound loads; it counts the loads, shows the page on success and sleeps 1, 2, 4, … between attempts |
| Kayak.KayakHotelScraper.ExtractHotelDetails | scraper/src/scrapers/kayak.py:223-254 | the details of the detail page exactly when `load_page` succeeds, `{}` otherwise, after the loads `load_page` makes |
| Kayak.KayakHotelScraper.KeepHotel | scraper/src/scrapers/kayak.py:442-445 | while the data is a list, the merged hotel is appended and the search page is loaded again; a dict gains nothing and no page is loaded |
| Kayak.KayakHotelScraper.ProcessHotel | scraper/src/scrapers/kayak.py:435-446 | one visited hotel is appended, merged with its page's details exactly when its detail page loads and with `{}` otherwise; the loads of the detail page and, while the data is a list, of the search page are counted |
| Kayak.LoadRun | scraper/src/scrapers/kayak.py:434-446 | whether each hotel of the detail loop has its detail page load, each hotel starting its `get`s where the previous one's detail load and search reload stopped |
| Kayak.LoadRunAll | scraper/src/scrapers/kayak.py:434-446 | when no `get` raises, every hotel's detail page loads |
| Kayak.VisitedRun | scraper/src/scrapers/kayak.py:434-446 | over a whole detail loop, each record is `{}` or its card's page; when no `get` raises, each record is its card's page |
| Kayak.KayakHotelScraper.ProcessHotels | scraper/src/scrapers/kayak.py:434-450 | every visited hotel is appended in order, merged with its page's details exactly when its own detail load succeeds, and with `{}` otherwise; when no `get` raises, every hotel gets its page's details |
| Kayak.KayakHotelScraper.VisitCards | scraper/src/scrapers/kayak.py:420-450 | the listings of the limited cards are visited, each merged with its page's details exactly when its detail load succeeds |
| Kayak.KayakHotelScraper.FormatOutput | scraper/src/scrapers/kayak.py:461-476 | the list becomes the `hotels` of a dict with one page and the base URL |
| Kayak.KayakHotelScraper.ScrapeHotels | scraper/src/scrapers/kayak.py:403-457 | `[]` when the search does not load or shows no card; otherwise the formatted dict over the visited hotels of the first `limit` cards, each merged with its page's details exactly when its detail load (counted from the `get` after the search load) succeeds, and every one of them when no `get` raises |
| KayakPage.PriceBy | scraper/src/scrapers/kayak.py:100-108 | a selector gives a price exactly when it finds an element with digits, and the price is their value |
| KayakPage.ExtractRoomPrice | scraper/src/scrapers/kayak.py:87-112 | the price is the first selector's that gives one |
| KayakPage.TryPrices | scraper/src/scrapers/kayak.py:99-109 | the selector loop gives the first price found |
| KayakPage.FirstPriceIsFirst | scraper/src/scrapers/kayak.py:99-106 | the price comes from the first selector that gives one |
| KayakPage.FirstPriceNone | scraper/src/scrapers/kayak.py:99-109 | there is no price exactly when no selector gives one |
| KayakPage.SeparatorDropped | scraper/src/scrapers/kayak.py:105 | a separator between the digits is dropped, so "$12.50" reads as 1250 |
| KayakPage.ThousandsPrice | scraper/src/scrapers/kayak.py:105 | "$1,234" reads as 1234 |
| KayakPage.CentsPrice | scraper/src/scrapers/kayak.py:105 | "$12.50" reads as 1250 |
| KayakPage.BedScanFirst | scraper/src/scrapers/kayak.py:152-156 | the bed is the first amenity mentioning a bed word, an exception when a detached one comes first, None when there is none |
| KayakPage.ScanBeds | scraper/src/scrapers/kayak.py:152-156 | the loop gives that first bed |
| KayakPage.FreebiesRaise | scraper/src/scrapers/kayak.py:159-167 | the freebies raise exactly when one of them is detached |
| KayakPage.FreebiesSpec | scraper/src/scrapers/kayak.py:159-167 | cancellation and board are the last freebies mentioning them, and the specials are the other freebies in order |
| KayakPage.CollectFreebies | scraper/src/scrapers/kayak.py:159-167 | the loop gives the freebies of the room |
| KayakPage.ProcessRoom | scraper/src/scrapers/kayak.py:126-175 | one room gives its record when it is worth keeping |
| KayakPage.ReadRoom | scraper/src/scrapers/kayak.py:127-170 | the record of one room, or an exception |
| KayakPage.ExtractRoomDetails | scraper/src/scrapers/kayak.py:114-181 | the kept records of the page's rooms |
| KayakPage.KeptRoomNeeds | scraper/src/scrapers/kayak.py:141-170 | a kept room has a title, no detached freebie, and a non-zero price when it has one |
| KayakPage.KeptRoomClean | scraper/src/scrapers/kayak.py:141-170 | a room with a non-empty title and attached amenities and freebies is kept with that title |
| KayakPage.RoomDetailsWorth | scraper/src/scrapers/kayak.py:169-170 | every kept room has a room type and some content |
| KayakPage.AddTexts | scraper/src/scrapers/kayak.py:202-208 | the loop adds the new texts of the attached amenities up to the first detached one |
| KayakPage.ReadCategory | scraper/src/scrapers/kayak.py:196-208 | one container adds its new amenity texts |
| KayakPage.ExtractKayakAmenities | scraper/src/scrapers/kayak.py:184-221 | the extractor gives the amenity list of the page |
| KayakPage.ReadTops | scraper/src/scrapers/kayak.py:211-215 | the top amenities are added after the containers' |
| KayakPage.AmenityListSpec | scraper/src/scrapers/kayak.py:184-221 | the amenities are the non-empty texts, each once, in first-occurrence order; a detached top amenity gives `[]` |
| KayakPage.MobileImage | scraper/src/scrapers/kayak.py:319-330 | at most one mobile image, without alt text |
| KayakPage.HighResImages | scraper/src/scrapers/kayak.py:347-357 | one high-resolution image per `srcset` entry, all with the picture's alt text |
| KayakPage.MainImages | scraper/src/scrapers/kayak.py:333-357 | a picture gives its main image first, then high-resolution ones |
| KayakPage.HighResLoop | scraper/src/scrapers/kayak.py:348-357 | the `srcset` loop gives those images |
| KayakPage.ExtractMainImages | scraper/src/scrapers/kayak.py:333-357 | the method gives the picture's images |
| KayakPage.ExtractHotelImages | scraper/src/scrapers/kayak.py:305-366 | the method gives the card's images |
| KayakPage.ImageOrder | scraper/src/scrapers/kayak.py:305-366 | the mobile image comes before the main image, which comes before the high-resolution ones, and none is a detail image |
| KayakPage.SrcsetUrlSpec | scraper/src/scrapers/kayak.py:350-352 | an entry's URL is its stripped text up to the first space |
| KayakPage.DetailCandidate | scraper/src/scrapers/kayak.py:383-392 | a candidate has a non-empty URL and is a detail image |
| KayakPage.ExtractDetailPageImages | scraper/src/scrapers/kayak.py:368-401 | the method gives the page's detail images |
| KayakPage.DetailImagesSpec | scraper/src/scrapers/kayak.py:368-401 | the detail images are the candidates, each URL once, in first-occurrence order, and none without a container |
| KayakPage.DetailImagesValid | scraper/src/scrapers/kayak.py:387-392 | every detail image has a URL |
| KayakPage.ExtractListing | scraper/src/scrapers/kayak.py:257-303 | the method gives the card's listing |
| KayakPage.ListingRequires | scraper/src/scrapers/kayak.py:257-303 | a card gives a listing exactly when its name and location are found, with their texts, the link and the images |
| KayakPage.ScoresTogether | scraper/src/scrapers/kayak.py:274-283 | rating and count are set together, from the parsed rating and the reviews' digits |
| HotelScraper.SearchUrlIsErrachidia | scraper/src/hotel_scraper.py:121-125 | the legacy URL is the Kayak search URL for Errachidia |
| HotelScraper.GetTextSafe | scraper/src/hotel_scraper.py:403-409 | a text exactly when the element is found, and then its stripped text |
| HotelScraper.GetAttributeSafe | scraper/src/hotel_scraper.py:411-417 | a value exactly when the element is found and has the attribute |
| HotelScraper.ScrollsSpec | scraper/src/hotel_scraper.py:137-146 | the scroll loop runs at least once and at most the bound, and stops at the first scroll that does not grow the page |
| HotelScraper.WithRatings | scraper/src/hotel_scraper.py:188-196 | reading the ratings changes no other field |
| HotelScraper.CardInfoNone | scraper/src/hotel_scraper.py:158-202 | the card gives no dict exactly when its name or location lookup is stale |
| HotelScraper.NamelessCard | scraper/src/hotel_scraper.py:158-202 | a card without a name still gives a dict, without name or URL, which is not kept |
| HotelScraper.PriceFallback | scraper/src/hotel_scraper.py:179-185 | the price is the main text, else the fallback text, else absent; a stale main price gives None |
| HotelScraper.RatingsTogether | scraper/src/hotel_scraper.py:188-196 | a stale rating or reviews lookup drops both; otherwise each is set exactly when found |
| HotelScraper.RoomBaseOf | scraper/src/hotel_scraper.py:293-316 | a room starts with no cancellation and no inclusions |
| HotelScraper.RoomFreebie | scraper/src/hotel_scraper.py:318-324 | a found freebie is either the cancellation or the one inclusion, as its text mentions cancellation |
| HotelScraper.BlankFreebieKept | scraper/src/hotel_scraper.py:318-326 | a blank freebie is kept as the inclusion `""`, and the room is kept |
| HotelScraper.KeptRoomSpec | scraper/src/hotel_scraper.py:286-336 | a room is kept exactly when it reads without an exception and has content |
| HotelScraper.Take | scraper/src/hotel_scraper.py:232-238 | a card is taken exactly when its dict is kept, and then it is that dict |
| HotelScraper.LoadedSpec | scraper/src/hotel_scraper.py:232-238 | with cards that stayed live, the dicts given a hotel are exactly the kept ones whose detail page loads |
| HotelScraper.ChosenSpec | scraper/src/hotel_scraper.py:232-238 | with cards that stayed live, the hotels are exactly those of the kept dicts whose page loads, with their details |
| HotelScraper.ChosenAll | scraper/src/hotel_scraper.py:232-238 | with cards that stayed live and every page loading, every kept dict would give a hotel |
| HotelScraper.FirstLoadFrom | scraper/src/hotel_scraper.py:225-238 | the first detail load from a given one that does not raise; every load before it raised |
| HotelScraper.FirstLoad | scraper/src/hotel_scraper.py:225-238 | the first detail load that does not raise; every load before it raised |
| HotelScraper.FirstHotelSpec | scraper/src/hotel_scraper.py:225-246 | at most one hotel, that of the first kept dict whose page loads, after one load for it and for each dict before it; no hotel when no page loads, after a load for every dict |
| HotelScraper.OneHotelOnly | scraper/src/hotel_scraper.py:225-246 | two kept cards whose pages both load give one hotel, and the later card's page is never requested |
| HotelScraper.LoadedFirst | scraper/src/hotel_scraper.py:232-238 | the first dict whose load succeeds is the first of the loaded dicts |
| HotelScraper.FirstOfChosen | scraper/src/hotel_scraper.py:225-246 | the scrape keeps only the first of the hotels it would keep if the cards stayed live |
| HotelScraper.StaleCardSkipped | scraper/src/hotel_scraper.py:164-171 | a stale card gives no dict, because its name lookup raises, and is not visited |
| HotelScraper.Limited | scraper/src/hotel_scraper.py:220-221 | the limited cards are a prefix |
| HotelScraper.LimitZero | scraper/src/hotel_scraper.py:220-221 | a limit of 0 keeps every card here, and none in `kayak.py` |
| HotelScraper.LimitPositive | scraper/src/hotel_scraper.py:220-221 | a positive limit keeps the first `limit` cards, as in `kayak.py` |
| HotelScraper.PriceDetailsMissing | scraper/src/hotel_scraper.py:508-544 | without a main price, the details are the empty price dict |
| HotelScraper.PriceDetailsHead | scraper/src/hotel_scraper.py:519-529 | the head fields are those price.py reads from the main price |
| HotelScraper.KayakHotelScraper.constructor | scraper/src/hotel_scraper.py:44-51 | a new scraper holds its search and an empty list |
| HotelScraper.KayakHotelScraper.FindElementWithRetry | scraper/src/hotel_scraper.py:109-119 | the legacy retry is the shared retry with three attempts |
| HotelScraper.KayakHotelScraper.GetPage | scraper/src/hotel_scraper.py:127-156 | one load; on success the page scrolls until its height stops growing |
| HotelScraper.KayakHotelScraper.ScrollToEnd | scraper/src/hotel_scraper.py:137-146 | the loop scrolls as often as the scroll count says and reads one more height |
| HotelScraper.KayakHotelScraper.ExtractRoomDetails | scraper/src/hotel_scraper.py:286-336 | the kept rooms of the page |
| HotelScraper.KayakHotelScraper.ProcessRoom | scraper/src/hotel_scraper.py:293-331 | one room gives its record when kept |
| HotelScraper.KayakHotelScraper.ReadRoomBase | scraper/src/hotel_scraper.py:293-316 | the room's base record, or an exception |
| HotelScraper.KayakHotelScraper.ExtractAmenities | scraper/src/hotel_scraper.py:338-369 | the same amenity dict as the extractor |
| HotelScraper.KayakHotelScraper.ExtractPolicies | scraper/src/hotel_scraper.py:445-474 | the same policy dict as the extractor |
| HotelScraper.KayakHotelScraper.ExtractBedInfo | scraper/src/hotel_scraper.py:476-506 | the same bed dict as the extractor |
| HotelScraper.KayakHotelScraper.ExtractHotelBasicInfo | scraper/src/hotel_scraper.py:158-202 | the card's dict, or none |
| HotelScraper.KayakHotelScraper.ReadPrice | scraper/src/hotel_scraper.py:179-185 | the price key of the card |
| HotelScraper.KayakHotelScraper.ReadRatings | scraper/src/hotel_scraper.py:188-196 | the card's dict with its ratings |
| HotelScraper.KayakHotelScraper.ExtractHotelDetails | scraper/src/hotel_scraper.py:255-284 | one load; the details of the page when it loads, none otherwise |
| HotelScraper.KayakHotelScraper.ProcessCard | scraper/src/hotel_scraper.py:226-246 | a kept card costs one load and appends its hotel when the page loads, which leaves the search page; any other card costs nothing |
| HotelScraper.KayakHotelScraper.VisitCard | scraper/src/hotel_scraper.py:232-238 | a visit costs one load and appends the hotel exactly when its page loads |
| HotelScraper.KayakHotelScraper.ScrapeHotels | scraper/src/hotel_scraper.py:204-253 | `[]` when the search fails or shows no card, after the one search load; otherwise the list gains the hotel of the first kept card whose detail page loads, and no other, after one load per kept card up to that one |
| HotelScraper.KayakHotelScraper.ProcessCards | scraper/src/hotel_scraper.py:225-246 | the loop visits the kept cards in order until a detail page loads; every card after it is stale and skipped at no load, so the list gains that card's hotel only |
| HotelScraper.KayakHotelScraper.RefreshAndRetry | scraper/src/hotel_scraper.py:419-433 | up to three refreshes until one succeeds; failed refreshes do not sleep, and the successful one is followed by one sleep of 2 to the number of failures before it |
| HotelScraper.ScrapeStep | scraper/src/hotel_scraper.py:225-246 | one more card keeps the card-loop invariant: the loads made and the hotel kept so far |
| HotelScraper.FirstStep | scraper/src/hotel_scraper.py:225-246 | after a page has loaded, a card adds no load and no hotel; before that, a kept card adds one load and, if its page loads, its hotel |
| HotelSearch.KeepMembers | frontend/src/app/components/hotel-search.tsx:43-46 | `filter` keeps exactly the elements that pass |
| HotelSearch.KeepAppend | frontend/src/app/components/hotel-search.tsx:43-46 | filtering a concatenation filters each part |
| HotelSearch.FilteredMembers | frontend/src/app/components/hotel-search.tsx:43-46 | a hotel is shown exactly when its name or location contains the query, ignoring case |
| HotelSearch.FilteredAppend | frontend/src/app/components/hotel-search.tsx:43-46 | the filter keeps the order of the list |
| HotelSearch.FilteredEmptyQuery | frontend/src/app/components/hotel-search.tsx:43-46 | an empty query shows every hotel |
| HotelSearch.FilteredIdempotent | frontend/src/app/components/hotel-search.tsx:43-46 | filtering twice is filtering once |
| HotelSearch.InsertPermutes | frontend/src/app/components/hotel-search.tsx:48 | inserting adds exactly one element |
| HotelSearch.SortPermutes | frontend/src/app/components/hotel-search.tsx:48 | sorting is a permutation |
| HotelSearch.SortStable | frontend/src/app/components/hotel-search.tsx:58 | a comparator that always answers 0 keeps the order |
| HotelSearch.InsertSplits | frontend/src/app/components/hotel-search.tsx:48 | for any comparator, inserting places the element after a prefix and before a run of elements that each compare greater than it |
| HotelSearch.InsertKeepsTies | frontend/src/app/components/hotel-search.tsx:48 | an inserted element goes after every element tied with it |
| HotelSearch.SortKeepsTies | frontend/src/app/components/hotel-search.tsx:48 | for any comparator, elements that compare 0 with one another keep their relative order |
| HotelSearch.PriceTiesKeepOrder | frontend/src/app/components/hotel-search.tsx:48-54 | under "price-asc", hotels with the same price, or with unparsable prices, keep the filtered order in the modelled sort; the program promises this order when every filtered price parses or none does, and otherwise it is one order the program may produce |
| HotelSearch.SortOrdered | frontend/src/app/components/hotel-search.tsx:48-59 | a comparator that is a key difference sorts by that key |
| HotelSearch.ParseIntUnsigned | frontend/src/app/components/hotel-search.tsx:50 | `parseInt` of a text with no sign or leading space reads an unsigned number |
| HotelSearch.ParseIntDecimal | frontend/src/app/components/hotel-search.tsx:50 | a text starting with a decimal digit reads its leading digits |
| HotelSearch.ParseIntPrefix | frontend/src/app/components/hotel-search.tsx:50 | digits followed by a non-digit read as the digits' value |
| HotelSearch.ParseIntNaN | frontend/src/app/components/hotel-search.tsx:50 | a text starting with a non-digit is NaN |
| HotelSearch.ReplaceFirstSpec | frontend/src/app/components/hotel-search.tsx:50 | `replace('$', '')` removes the first "$" only |
| HotelSearch.SortedPermutes | frontend/src/app/components/hotel-search.tsx:48-59 | the sorted list holds exactly the filtered hotels |
| HotelSearch.OtherKeysKeepOrder | frontend/src/app/components/hotel-search.tsx:58 | any other sort key keeps the filtered order |
| HotelSearch.PriceAscOrdered | frontend/src/app/components/hotel-search.tsx:49-51 | "price-asc" sorts by price, lowest first |
| HotelSearch.PriceDescOrdered | frontend/src/app/components/hotel-search.tsx:52-54 | "price-desc" sorts by price, highest first |
| HotelSearch.RatingOrdered | frontend/src/app/components/hotel-search.tsx:55-57 | "rating" sorts by rating, highest first |
| HotelSearch.DollarPrice | frontend/src/app/components/hotel-search.tsx:50 | "$N…" reads as N |
| HotelSearch.NaNPriceComparesEqual | frontend/src/app/components/hotel-search.tsx:49-54 | a price that is not a number compares equal to every other |
| AnalyzeProject.ShouldIgnoreSpec | analyze_project.py:11-15 | a path is ignored exactly when one of its components is an ignored directory or it ends with an ignored suffix |
| AnalyzeProject.PieceIsSegment | analyze_project.py:13 | every piece of the split is a component of the path |
| AnalyzeProject.SegmentIsPiece | analyze_project.py:13 | every component of the path is a piece of the split |
| AnalyzeProject.UnderIgnoredDir | analyze_project.py:14 | anything below an ignored directory is ignored |
| AnalyzeProject.SimilarDirKept | analyze_project.py:14 | a component must equal an ignored name exactly, so "venv2" is kept |
| AnalyzeProject.SuffixMatchesLongerName | analyze_project.py:15 | any path ending in "analyze_project.py" is ignored |
| AnalyzeProject.UpperCaseSuffixKept | analyze_project.py:15 | "README.MD" is kept |

## Left out

- **Browser work that is not data handling.** The model leaves out starting and setting up the browser and its options, the cookie and popup handling, `wait_for_ajax`, `scrollIntoView`, the fixed waits and the random delays between hotels. The wait timeouts are left out too: a wait sees the page as it is.
- **Logging and printing.** Every `logger` call and `print` is left out.
- **The clock.** The scraping date and time of `format_output` are parameters.
- **Which loads fail.** Which `get` or `refresh` fails is a parameter of the session. So is the sequence of page heights.
- **Number parsing.** `float()` of a rating in `kayak.py` and `parseFloat` in the front end are parameters.
  - The Kayak room price and review count are read as natural numbers. The model does not model floating point.
- **Stale cards.** A legacy search card goes stale exactly when a detail page has loaded after the search page. A detail load that raises is taken to leave the search page in place, so the cards after it stay live.
- **The JavaScript sort.** `sort` is modelled as a stable insertion sort. For a comparator that is not consistent (such as "price-asc" over a list that mixes parsing and unparsable prices, where "$5" and "$abc" compare 0, "$abc" and "$3" compare 0, but "$5" and "$3" do not), the JavaScript order is implementation-defined. For such a list, SortKeepsTies and PriceTiesKeepOrder state the order of the modelled insertion sort, which is one order the program may produce, not one it promises.
- **The unused front-end filters.** `priceFilter` and `ratingFilter` are state that no computation reads.
- **Unicode.** `str.lower`, `toLowerCase` and white space are modelled for ASCII only.
- **The path separator.** `os.sep` is a parameter of `should_ignore`.
- **The rest of `ProjectAnalyzer`** (the directory walk and the JSON output) is not part of this model.
- **Legacy `extract_price_details`.** It is modelled as a function (`HotelScraper.PriceDetailsHead`). The legacy scraper never calls it.
- **Sleep durations.** The session log holds the back-off sleeps of the page-load and refresh retries, with their lengths, not the time that passes.
- HotelScraper.KayakHotelScraper.FindElementWithRetry: its one-second sleeps between stale lookups are not added to the session log. The retry loop states them in its own `naps` result (`Retry.FindElementWithRetry`), which the legacy wrapper and `Retry.FindWithRetry` drop. Adding them would put every element lookup under the session frame.
- Kayak.KayakHotelScraper.ProcessHotels: the details of each page are stated against the page the model shows for each URL; a detail page that changes between loads is not modelled.
