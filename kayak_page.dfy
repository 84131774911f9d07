/** The page extractors of KayakHotelScraper (scraper/src/scrapers/kayak.py),
    each on the page or element value the driver shows: a room's price by
    several selectors, the grouped room types, the deduplicated amenity list,
    the search-result images, the detail-page images and a result card's
    basic information. Scrolling and settling sleeps are left out; every
    exception a lookup can raise is modelled. */
module KayakPage {
  import opened Wrappers
  import opened PyStr
  import opened Seqs
  import opened Dom
  import opened Retry
  import BasicInfo

  // ---------------------------------------------------------------- room price

  /** The price selectors, in the order they are tried. */
  const PRICE_SELECTORS: seq<string> :=
    ["span.C9NJ-amount", "div.C9NJ-amount", "div.Ptt7-price", "div.c1XBO", "div[class*=\"price\"]"]

  /** What one price selector yields: the number the digits of the stripped
      text spell. A lookup that raises, and a text without digits (`float('')`
      raises), give None, and the next selector is tried. Removing the commas
      first changes no digit, so it is not written out. */
  function PriceBy(room: Item, sel: string): (r: Option<nat>)
    ensures r.Some? <==> FindElement(room, sel).Ok? && DigitsOnly(Strip(FindElement(room, sel).value.text)) != ""
    ensures r.Some? ==> r.value == DigitsValue(DigitsOnly(Strip(FindElement(room, sel).value.text)))
  {
    match FindElement(room, sel)
    case Raise(_) => None
    case Ok(e) =>
      var digits := DigitsOnly(Strip(e.text));
      if digits == "" then None else Some(DigitsValue(digits))
  }

  /** The first selector of `sels` that yields a price. */
  function FirstPrice(room: Item, sels: seq<string>): Option<nat> {
    if sels == [] then None
    else match PriceBy(room, sels[0])
      case Some(p) => Some(p)
      case None => FirstPrice(room, sels[1..])
  }

  /** extract_room_price. */
  method ExtractRoomPrice(room: Item) returns (price: Option<nat>)
    ensures price == FirstPrice(room, PRICE_SELECTORS)
  {
    price := TryPrices(room, PRICE_SELECTORS);
  }

  /** The loop of extract_room_price over its selector list. */
  method TryPrices(room: Item, sels: seq<string>) returns (price: Option<nat>)
    ensures price == FirstPrice(room, sels)
  {
    var i := 0;
    while i < |sels|
      invariant 0 <= i <= |sels|
      invariant FirstPrice(room, sels) == FirstPrice(room, sels[i..])
    {
      var found := FindElement(room, sels[i]);
      if found.Ok? {
        var digits := DigitsOnly(Strip(found.value.text));
        if digits != "" {
          return Some(DigitsValue(digits));
        }
      }
      assert sels[i..][1..] == sels[i + 1..];
      i := i + 1;
    }
    return None;
  }

  /** The price is the one of the first selector that yields one. */
  lemma {:induction false} FirstPriceIsFirst(room: Item, sels: seq<string>, i: nat)
    requires i < |sels| && PriceBy(room, sels[i]).Some?
    requires forall j | 0 <= j < i :: PriceBy(room, sels[j]).None?
    ensures FirstPrice(room, sels) == PriceBy(room, sels[i])
  {
    if i > 0 {
      assert PriceBy(room, sels[0]).None?;
      forall j | 0 <= j < i - 1 ensures PriceBy(room, sels[1..][j]).None? {
        assert sels[1..][j] == sels[j + 1];
      }
      FirstPriceIsFirst(room, sels[1..], i - 1);
    }
  }

  /** There is no price exactly when no selector yields one. */
  lemma {:induction false} FirstPriceNone(room: Item, sels: seq<string>)
    ensures FirstPrice(room, sels).None? <==> forall j | 0 <= j < |sels| :: PriceBy(room, sels[j]).None?
  {
    if sels != [] {
      FirstPriceNone(room, sels[1..]);
      EveryCons(sels, sel => PriceBy(room, sel).None?);
    }
  }

  /** A first selector whose text has digits gives the price. */
  lemma FirstPriceHead(room: Item, sels: seq<string>, e: Elem)
    requires sels != [] && Probe(room, sels[0]) == Found(e)
    requires DigitsOnly(Strip(e.text)) != ""
    ensures FirstPrice(room, sels) == Some(DigitsValue(DigitsOnly(Strip(e.text))))
  {
    assert FindElement(room, sels[0]) == Ok(e);
  }

  /** The digits of "$" + whole + sep + frac are those of the two groups. */
  lemma {:induction false} Separated(whole: string, sep: char, frac: string)
    requires IsDigits(whole) && IsDigits(frac) && !IsDigit(sep)
    ensures DigitsOnly("$" + whole + [sep] + frac) == whole + frac
  {
    DigitsOnlyAppend("$" + whole + [sep], frac);
    DigitsOnlyAppend("$" + whole, [sep]);
    DigitsOnlyAppend("$", whole);
    assert DigitsOnly("$") == "" && DigitsOnly([sep]) == "";
    DigitsOnlyOfDigits(whole);
    DigitsOnlyOfDigits(frac);
  }

  /** A character between two digit groups is dropped, whatever it is: the
      thousands separator of "$1,234", but also the decimal point of "$12.50".
      The value is then that of the two groups written together, which
      DigitsValueAppend spells out. */
  lemma SeparatorDropped(room: Item, sels: seq<string>, e: Elem, whole: string, sep: char, frac: string)
    requires sels != [] && Probe(room, sels[0]) == Found(e)
    requires Strip(e.text) == "$" + whole + [sep] + frac
    requires IsDigits(whole) && IsDigits(frac) && !IsDigit(sep)
    ensures FirstPrice(room, sels) == Some(DigitsValue(whole + frac))
  {
    Separated(whole, sep, frac);
    FirstPriceHead(room, sels, e);
  }

  /** "$1,234" at the first selector is the price 1234. */
  lemma ThousandsPrice(room: Item, sels: seq<string>, e: Elem)
    requires sels != [] && Probe(room, sels[0]) == Found(e) && Strip(e.text) == "$1,234"
    ensures FirstPrice(room, sels) == Some(1234)
  {
    ThousandsDigits();
    Value1234();
    FirstPriceHead(room, sels, e);
  }

  lemma ThousandsDigits()
    ensures DigitsOnly("$1,234") == "1234"
  {
    assert "$1,234" == "$" + "1" + [','] + "234";
    Separated("1", ',', "234");
    assert "1" + "234" == "1234";
  }

  lemma Value1234()
    ensures DigitsValue("1234") == 1234
  {
    assert "1234"[..3] == "123" && "123"[..2] == "12" && "12"[..1] == "1" && "1"[..0] == "";
    assert DigitsValue("1") == 1;
    assert DigitsValue("12") == 12;
    assert DigitsValue("123") == 123;
  }

  /** "$12.50" at the first selector is the price 1250, a hundred times the
      amount shown. */
  lemma CentsPrice(room: Item, sels: seq<string>, e: Elem)
    requires sels != [] && Probe(room, sels[0]) == Found(e) && Strip(e.text) == "$12.50"
    ensures FirstPrice(room, sels) == Some(1250)
  {
    CentsDigits();
    Value1250();
    FirstPriceHead(room, sels, e);
  }

  lemma CentsDigits()
    ensures DigitsOnly("$12.50") == "1250"
  {
    assert "$12.50" == "$" + "12" + ['.'] + "50";
    Separated("12", '.', "50");
    assert "12" + "50" == "1250";
  }

  lemma Value1250()
    ensures DigitsValue("1250") == 1250
  {
    assert "1250"[..3] == "125" && "125"[..2] == "12" && "12"[..1] == "1" && "1"[..0] == "";
    assert DigitsValue("1") == 1;
    assert DigitsValue("12") == 12;
    assert DigitsValue("125") == 125;
  }

  // -------------------------------------------------------------- room details

  const ROOM_ELEMENTS := "div.LK1E-groupedRoomType"
  const ROOM_TITLE := "div.c_Hjx-group-header-title"
  const BED_AMENITY := "div.c_Hjx-detail-amenity"
  const FREEBIES := ".BZag-freebie"
  const BED_WORDS: seq<string> := ["bed", "twin", "double", "queen", "king"]

  /** The bed test, on the lower-cased text before stripping. */
  predicate MentionsBed(text: string) { AnyIn(BED_WORDS, Lower(text)) }

  /** The bed loop: the stripped text of the first amenity that mentions a bed;
      reading a detached amenity before that one raises. */
  function BedScan(items: seq<Item>): Outcome<Option<string>> {
    if items == [] then Ok(None)
    else match items[0]
      case Detached => Raise(StaleElement)
      case Live(e) => if MentionsBed(e.text) then Ok(Some(Strip(e.text))) else BedScan(items[1..])
  }

  /** An amenity the bed loop reads and moves past. */
  predicate Passed(it: Item) { it.Live? && !MentionsBed(it.elem.text) }

  /** The bed loop stops at the first amenity it does not move past: that one's
      text when it is attached, an exception when it is detached, and None
      when every amenity is passed. */
  lemma {:induction false} BedScanFirst(items: seq<Item>)
    ensures var k := FirstWithKey(items, Passed, false);
      BedScan(items) ==
        if k == |items| then Ok(None)
        else if items[k].Detached? then Raise(StaleElement)
        else Ok(Some(Strip(items[k].elem.text)))
  {
    if items != [] && Passed(items[0]) {
      BedScanFirst(items[1..]);
      var k := FirstWithKey(items[1..], Passed, false);
      assert FirstWithKey(items, Passed, false) == k + 1;
      if k < |items[1..]| {
        assert items[1..][k] == items[k + 1];
      }
    }
  }

  /** The bed loop, with its `break`. */
  method ScanBeds(items: seq<Item>) returns (bed: Outcome<Option<string>>)
    ensures bed == BedScan(items)
  {
    var i := 0;
    while i < |items|
      invariant 0 <= i <= |items|
      invariant BedScan(items) == BedScan(items[i..])
    {
      var read := Text(items[i]);
      if read.Raise? {
        return Raise(StaleElement);
      }
      if AnyIn(BED_WORDS, Lower(read.value)) {
        return Ok(Some(Strip(read.value)));
      }
      assert items[i..][1..] == items[i + 1..];
      i := i + 1;
    }
    return Ok(None);
  }

  /** What the freebie loop fills in. */
  datatype Freebies = Freebies(cancellation: Option<string>, boardType: Option<string>, special: seq<string>)

  const NoFreebies := Freebies(None, None, [])

  predicate GivesCancellation(t: string) { Contains(Lower(t), "cancellation") }
  predicate GivesBoard(t: string) { !GivesCancellation(t) && Contains(Lower(t), "breakfast") }

  function SpecialFreebie(t: string): Option<string> {
    if !GivesCancellation(t) && !Contains(Lower(t), "breakfast") && t != "" then Some(t) else None
  }

  /** One step of the freebie loop on a stripped text. */
  function Freebie(f: Freebies, text: string): Freebies {
    if Contains(Lower(text), "cancellation") then f.(cancellation := Some(text))
    else if Contains(Lower(text), "breakfast") then f.(boardType := Some(text))
    else if text != "" then f.(special := f.special + [text])
    else f
  }

  /** The freebie loop over `items`; a detached freebie raises. */
  function FreebiesOf(items: seq<Item>): Outcome<Freebies> {
    if items == [] then Ok(NoFreebies)
    else match FreebiesOf(items[..|items| - 1])
      case Raise(x) => Raise(x)
      case Ok(f) =>
        match items[|items| - 1]
        case Detached => Raise(StaleElement)
        case Live(e) => Ok(Freebie(f, Strip(e.text)))
  }

  /** The freebie loop raises exactly when a freebie is detached. */
  lemma {:induction false} FreebiesRaise(items: seq<Item>)
    ensures FreebiesOf(items).Raise? <==> Detached in items
  {
    if items != [] {
      var init, x := items[..|items| - 1], items[|items| - 1];
      assert items == init + [x];
      FreebiesRaise(init);
      assert Detached in items <==> Detached in init || x == Detached;
    }
  }

  /** Without a detached freebie, the cancellation policy and the board type
      are the last texts of their kind (cancellation winning over breakfast),
      and the special conditions are the other non-empty texts in order. */
  lemma {:induction false} FreebiesSpec(items: seq<Item>)
    ensures FreebiesOf(items).Ok? ==>
      FreebiesOf(items).value == Freebies(
        LastMatch(LiveTexts(items), GivesCancellation),
        LastMatch(LiveTexts(items), GivesBoard),
        FilterMap(LiveTexts(items), SpecialFreebie))
  {
    if items != [] {
      var init, x := items[..|items| - 1], items[|items| - 1];
      assert items == init + [x];
      FreebiesSpec(init);
      if FreebiesOf(items).Ok? {
        Dom.LiveTextsSnoc(init, x.elem);
        FreebieTracksStep(FreebiesOf(init).value, LiveTexts(init), Strip(x.elem.text));
      }
    }
  }

  /** The freebies are what the loop over `texts` leaves. */
  predicate FreebieTracks(f: Freebies, texts: seq<string>) {
    f == Freebies(LastMatch(texts, GivesCancellation), LastMatch(texts, GivesBoard), FilterMap(texts, SpecialFreebie))
  }

  lemma FreebieTracksStep(f: Freebies, s: seq<string>, t: string)
    requires FreebieTracks(f, s)
    ensures FreebieTracks(Freebie(f, t), s + [t])
  {
    LastMatchSnoc(s, t, GivesCancellation);
    LastMatchSnoc(s, t, GivesBoard);
    FilterMapSnoc(s, t, SpecialFreebie);
  }

  /** The freebie loop. */
  method CollectFreebies(items: seq<Item>) returns (r: Outcome<Freebies>)
    ensures r == FreebiesOf(items)
  {
    var f := NoFreebies;
    var i := 0;
    while i < |items|
      invariant 0 <= i <= |items|
      invariant FreebiesOf(items[..i]) == Ok(f)
    {
      assert items[..i + 1][..i] == items[..i];
      var read := Text(items[i]);
      if read.Raise? {
        FreebiesRaiseExtends(items, i + 1);
        return Raise(StaleElement);
      }
      var text := Strip(read.value);
      if Contains(Lower(text), "cancellation") {
        f := f.(cancellation := Some(text));
      } else if Contains(Lower(text), "breakfast") {
        f := f.(boardType := Some(text));
      } else if text != "" {
        f := f.(special := f.special + [text]);
      }
      i := i + 1;
    }
    assert items[..i] == items;
    return Ok(f);
  }

  /** Once the loop has raised, the rest of the list does not matter. */
  lemma {:induction false} FreebiesRaiseExtends(items: seq<Item>, n: nat)
    requires n <= |items| && FreebiesOf(items[..n]) == Raise(StaleElement)
    ensures FreebiesOf(items) == Raise(StaleElement)
    decreases |items| - n
  {
    if n < |items| {
      assert items[..n + 1][..n] == items[..n];
      FreebiesRaiseExtends(items, n + 1);
    } else {
      assert items[..n] == items;
    }
  }

  /** The `room_info` dict of one grouped room type; `price` is the float. */
  datatype KRoom = KRoom(
    roomType: Option<string>,
    price: Option<nat>,
    bedConfiguration: Option<string>,
    cancellationPolicy: Option<string>,
    boardType: Option<string>,
    specialConditions: seq<string>)

  /** A string value that Python treats as true. */
  predicate Truthy(o: Option<string>) { o.Some? && o.value != "" }

  /** `any(v for v in room_info.values() if v)`. */
  predicate Worth(r: KRoom) {
    || Truthy(r.roomType)
    || (r.price.Some? && r.price.value != 0)
    || Truthy(r.bedConfiguration)
    || Truthy(r.cancellationPolicy)
    || Truthy(r.boardType)
    || r.specialConditions != []
  }

  /** One grouped room type; a missing title, a detached room, and a detached
      amenity or freebie the loops read all raise. A price of 0 is false and
      is not stored. */
  function KRoomOf(room: Item): Outcome<KRoom> {
    match FindElement(room, ROOM_TITLE)
    case Raise(x) => Raise(x)
    case Ok(title) =>
      var price := FirstPrice(room, PRICE_SELECTORS);
      match BedScan(Children(room, BED_AMENITY))
      case Raise(x) => Raise(x)
      case Ok(bed) =>
        match FreebiesOf(Children(room, FREEBIES))
        case Raise(x) => Raise(x)
        case Ok(f) =>
          Ok(KRoom(Some(Strip(title.text)), if price.Some? && price.value != 0 then price else None,
                   bed, f.cancellation, f.boardType, f.special))
  }

  /** The room kept by the loop: read without raising, and with a true value. */
  function KeptRoom(room: Item): Option<KRoom> {
    match KRoomOf(room)
    case Raise(_) => None
    case Ok(r) => if Worth(r) then Some(r) else None
  }

  /** extract_room_details on a page. */
  function RoomDetails(page: Elem): seq<KRoom> {
    FilterMap(Children(Live(page), ROOM_ELEMENTS), KeptRoom)
  }

  method ProcessRoom(room: Item) returns (r: Option<KRoom>)
    ensures r == KeptRoom(room)
  {
    var read := ReadRoom(room);
    r := if read.Ok? && Worth(read.value) then Some(read.value) else None;
  }

  /** The lookups and loops of one grouped room type. */
  method ReadRoom(room: Item) returns (r: Outcome<KRoom>)
    ensures r == KRoomOf(room)
  {
    var title := FindElement(room, ROOM_TITLE);
    if title.Raise? {
      return Raise(title.exc);
    }
    var price := ExtractRoomPrice(room);
    var bed := ScanBeds(Children(room, BED_AMENITY));
    if bed.Raise? {
      return Raise(bed.exc);
    }
    var freebies := CollectFreebies(Children(room, FREEBIES));
    if freebies.Raise? {
      return Raise(freebies.exc);
    }
    var info := KRoom(Some(Strip(title.value.text)), None, bed.value, freebies.value.cancellation,
                      freebies.value.boardType, freebies.value.special);
    if price.Some? && price.value != 0 {
      info := info.(price := price);
    }
    return Ok(info);
  }

  /** The loop of extract_room_details. */
  method ExtractRoomDetails(page: Elem) returns (rooms: seq<KRoom>)
    ensures rooms == RoomDetails(page)
  {
    var elems := Children(Live(page), ROOM_ELEMENTS);
    rooms := [];
    var i := 0;
    while i < |elems|
      invariant 0 <= i <= |elems|
      invariant rooms == FilterMap(elems[..i], KeptRoom)
    {
      FilterMapPrefix(elems, i, KeptRoom);
      var r := ProcessRoom(elems[i]);
      if r.Some? {
        rooms := rooms + [r.value];
      }
      i := i + 1;
    }
    assert elems[..i] == elems;
  }

  /** A kept room type had its title found and no detached freebie, and
      carries no zero price. */
  lemma KeptRoomNeeds(room: Item)
    ensures KeptRoom(room).Some? ==> Probe(room, ROOM_TITLE).Found?
    ensures KeptRoom(room).Some? ==> Detached !in Children(room, FREEBIES)
    ensures KeptRoom(room).Some? && KeptRoom(room).value.price.Some? ==> KeptRoom(room).value.price.value != 0
  {
    if KeptRoom(room).Some? {
      var freebies := Children(room, FREEBIES);
      assert FindElement(room, ROOM_TITLE).Ok?;
      assert FreebiesOf(freebies).Ok?;
      FreebiesRaise(freebies);
    }
  }

  /** A room type whose title is there and not blank, and none of whose
      amenities and freebies is detached, is kept, with the stripped title as
      its type. */
  lemma KeptRoomClean(room: Item)
    requires Probe(room, ROOM_TITLE).Found? && Strip(Probe(room, ROOM_TITLE).elem.text) != ""
    requires forall i | 0 <= i < |Children(room, BED_AMENITY)| :: Children(room, BED_AMENITY)[i].Live?
    requires Detached !in Children(room, FREEBIES)
    ensures KeptRoom(room).Some?
    ensures KeptRoom(room).value.roomType == Some(Strip(Probe(room, ROOM_TITLE).elem.text))
  {
    var beds, freebies := Children(room, BED_AMENITY), Children(room, FREEBIES);
    BedScanFirst(beds);
    assert BedScan(beds).Ok?;
    FreebiesRaise(freebies);
    assert FreebiesOf(freebies).Ok?;
    var r := KRoomOf(room);
    assert r.Ok? && r.value.roomType == Some(Strip(Probe(room, ROOM_TITLE).elem.text));
    assert Worth(r.value);
  }

  /** Every room in the list has a title and a true value. */
  lemma RoomDetailsWorth(page: Elem)
    ensures forall r | r in RoomDetails(page) :: Worth(r) && r.roomType.Some?
  {
    var elems := Children(Live(page), ROOM_ELEMENTS);
    forall r | r in RoomDetails(page) ensures Worth(r) && r.roomType.Some? {
      FilterMapMembers(elems, KeptRoom, r);
    }
  }

  // ----------------------------------------------------------------- amenities

  const CATEGORY_CONTAINERS := ".kml-col-12-12.kml-col-6-12-m"
  const CATEGORY_NAME := ".BxLB-category-name"
  const AMENITY_NAME := ".BxLB-amenity-name"
  const TOP_AMENITIES := ".t8Xi-amenity-name"

  /** The stripped texts read before the first detached element, whose read
      raises and ends the loop. */
  function UntilStale(items: seq<Item>): seq<string> {
    if items == [] then []
    else match items[0]
      case Detached => []
      case Live(e) => [Strip(e.text)] + UntilStale(items[1..])
  }

  /** The texts one category container offers: none when its name is missing
      or blank. */
  function CategoryCandidates(c: Item): seq<string> {
    match FindElement(c, CATEGORY_NAME)
    case Raise(_) => []
    case Ok(name) => if Strip(name.text) == "" then [] else UntilStale(Children(c, AMENITY_NAME))
  }

  /** The texts of all containers, in order. */
  function Candidates(cs: seq<Item>): seq<string> {
    if cs == [] then [] else Candidates(cs[..|cs| - 1]) + CategoryCandidates(cs[|cs| - 1])
  }

  function Id(s: string): string { s }

  /** The non-empty texts, each kept at its first occurrence. */
  function Collected(texts: seq<string>): seq<string> {
    AddUnique([], FilterMap(texts, NonEmpty), Id)
  }

  /** extract_amenities on a page: a detached top-summary amenity makes the
      whole call return []. */
  function AmenityList(page: Elem): seq<string> {
    var tops := Children(Live(page), TOP_AMENITIES);
    if Detached in tops then []
    else Collected(Candidates(Children(Live(page), CATEGORY_CONTAINERS)) + LiveTexts(tops))
  }

  lemma CollectedSnoc(texts: seq<string>, t: string)
    ensures Collected(texts + [t]) == if t == "" then Collected(texts) else AddIfNew(Collected(texts), t, Id)
  {
    FilterMapSnoc(texts, t, NonEmpty);
    var fm := FilterMap(texts, NonEmpty);
    if t != "" {
      assert (fm + [t])[..|fm|] == fm;
    } else {
      assert fm + [] == fm;
    }
  }

  lemma HasKeyId(s: seq<string>, a: string)
    ensures HasKey(s, Id, a) <==> a in s
  {
    if a in s {
      var i :| 0 <= i < |s| && s[i] == a;
      assert Id(s[i]) == a;
    }
  }

  lemma LiveTextsSnoc(items: seq<Item>, j: nat)
    requires j < |items| && items[j].Live?
    ensures LiveTexts(items[..j + 1]) == LiveTexts(items[..j]) + [Strip(items[j].elem.text)]
  {
    assert items[..j + 1] == items[..j] + [items[j]];
    FilterMapSnoc(items[..j], items[j], StrippedText);
  }

  /** An amenity loop on a list: the non-empty texts not yet present are
      appended, up to the first detached item, whose read raises; `j` is
      where the loop stopped. */
  method AddTexts(items: seq<Item>, amenities: seq<string>, ghost seen: seq<string>)
    returns (r: seq<string>, j: nat)
    requires amenities == Collected(seen)
    ensures j <= |items| && (j < |items| ==> items[j].Detached?)
    ensures |LiveTexts(items[..j])| == j
    ensures UntilStale(items) == LiveTexts(items[..j])
    ensures r == Collected(seen + LiveTexts(items[..j]))
  {
    r := amenities;
    j := 0;
    ghost var texts: seq<string> := [];
    assert items[..0] == [] && items[0..] == items && seen + [] == seen;
    while j < |items| && items[j].Live?
      invariant 0 <= j <= |items|
      invariant |texts| == j
      invariant texts == LiveTexts(items[..j])
      invariant UntilStale(items) == texts + UntilStale(items[j..])
      invariant r == Collected(seen + texts)
    {
      var a := Strip(items[j].elem.text);
      AddTextsStep(items, seen, texts, j, r);
      r := Added(r, a);
      texts := texts + [a];
      j := j + 1;
    }
    if j < |items| {
      assert items[j..][0] == items[j];
    } else {
      assert items[j..] == [];
    }
  }

  /** One pass of the AddTexts loop over an attached item. */
  lemma AddTextsStep(items: seq<Item>, seen: seq<string>, texts: seq<string>, j: nat, r: seq<string>)
    requires j < |items| && items[j].Live?
    requires texts == LiveTexts(items[..j])
    requires UntilStale(items) == texts + UntilStale(items[j..])
    requires r == Collected(seen + texts)
    ensures LiveTexts(items[..j + 1]) == texts + [Strip(items[j].elem.text)]
    ensures UntilStale(items) == (texts + [Strip(items[j].elem.text)]) + UntilStale(items[j + 1..])
    ensures Added(r, Strip(items[j].elem.text)) == Collected(seen + (texts + [Strip(items[j].elem.text)]))
  {
    var a := Strip(items[j].elem.text);
    UntilStaleLive(items, j);
    LiveTextsSnoc(items, j);
    Regroup(texts, a, UntilStale(items[j + 1..]));
    Regroup(seen, a, texts);
    AddedStep(seen + texts, a);
  }

  /** `if amenity and amenity not in amenities: amenities.append(amenity)`. */
  function Added(amenities: seq<string>, a: string): seq<string> {
    if a != "" && a !in amenities then amenities + [a] else amenities
  }

  lemma AddedStep(texts: seq<string>, a: string)
    ensures Collected(texts + [a]) == Added(Collected(texts), a)
  {
    CollectedSnoc(texts, a);
    HasKeyId(Collected(texts), a);
  }

  lemma UntilStaleLive(items: seq<Item>, j: nat)
    requires j < |items| && items[j].Live?
    ensures UntilStale(items[j..]) == [Strip(items[j].elem.text)] + UntilStale(items[j + 1..])
  {
    assert items[j..][0] == items[j] && items[j..][1..] == items[j + 1..];
  }

  lemma Regroup(x: seq<string>, a: string, y: seq<string>)
    ensures x + ([a] + y) == (x + [a]) + y
    ensures (x + y) + [a] == x + (y + [a])
  {
  }

  /** The body of the container loop for one category container. */
  method ReadCategory(c: Item, amenities: seq<string>, ghost seen: seq<string>) returns (r: seq<string>)
    requires amenities == Collected(seen)
    ensures r == Collected(seen + CategoryCandidates(c))
  {
    var name := FindElement(c, CATEGORY_NAME);
    if name.Raise? || Strip(name.value.text) == "" {
      assert seen + CategoryCandidates(c) == seen;
      return amenities;
    }
    var items := Children(c, AMENITY_NAME);
    var j;
    r, j := AddTexts(items, amenities, seen);
  }

  /** The loops of extract_amenities. */
  method ExtractKayakAmenities(page: Elem) returns (amenities: seq<string>)
    ensures amenities == AmenityList(page)
  {
    var containers := Children(Live(page), CATEGORY_CONTAINERS);
    amenities := [];
    ghost var seen: seq<string> := [];
    var i := 0;
    while i < |containers|
      invariant 0 <= i <= |containers|
      invariant seen == Candidates(containers[..i])
      invariant amenities == Collected(seen)
    {
      CandidatesPrefix(containers, i);
      amenities := ReadCategory(containers[i], amenities, seen);
      seen := seen + CategoryCandidates(containers[i]);
      i := i + 1;
    }
    assert containers[..i] == containers;
    amenities := ReadTops(page, amenities, seen);
  }

  lemma CandidatesPrefix(cs: seq<Item>, i: nat)
    requires i < |cs|
    ensures Candidates(cs[..i + 1]) == Candidates(cs[..i]) + CategoryCandidates(cs[i])
  {
    assert cs[..i + 1][..i] == cs[..i];
  }

  /** The loop over the top-summary amenities, which end the call with []
      at the first detached one. */
  method ReadTops(page: Elem, amenities: seq<string>, ghost seen: seq<string>) returns (r: seq<string>)
    requires seen == Candidates(Children(Live(page), CATEGORY_CONTAINERS))
    requires amenities == Collected(seen)
    ensures r == AmenityList(page)
  {
    var tops := Children(Live(page), TOP_AMENITIES);
    var j;
    r, j := AddTexts(tops, amenities, seen);
    if j < |tops| {
      assert tops[j] == Detached;
      return [];
    }
    assert tops[..j] == tops;
    AllLiveTexts(tops);
  }

  /** Only a list without detached items keeps its length under LiveTexts. */
  lemma AllLiveTexts(items: seq<Item>)
    requires |LiveTexts(items)| == |items|
    ensures Detached !in items
  {
    FilterMapKeepsAll(items, StrippedText);
  }

  /** Unless a top-summary amenity is detached, the list holds every non-empty
      candidate text exactly once, at the place of its first occurrence, the
      category containers' texts before the top summary's. */
  lemma AmenityListSpec(page: Elem)
    ensures var tops := Children(Live(page), TOP_AMENITIES);
      Detached in tops ==> AmenityList(page) == []
    ensures var tops := Children(Live(page), TOP_AMENITIES);
      var texts := Candidates(Children(Live(page), CATEGORY_CONTAINERS)) + LiveTexts(tops);
      Detached !in tops ==>
        FirstOccurrences(AmenityList(page), FilterMap(texts, NonEmpty), Id)
    ensures forall i | 0 <= i < |AmenityList(page)| :: AmenityList(page)[i] != ""
  {
    var tops := Children(Live(page), TOP_AMENITIES);
    var texts := Candidates(Children(Live(page), CATEGORY_CONTAINERS)) + LiveTexts(tops);
    if Detached !in tops {
      var fm := FilterMap(texts, NonEmpty);
      assert [] + fm == fm;
      AddUniqueSpec([], fm, Id);
      var r := AmenityList(page);
      forall i | 0 <= i < |r| ensures r[i] != "" {
        var n := FirstWithKey(fm, Id, Id(r[i]));
        FilterMapMembers(texts, NonEmpty, fm[n]);
      }
    }
  }

  // -------------------------------------------------------------------- images

  datatype ImageKind = Mobile | Main | HighRes | Detail

  /** One image dict: `url`, `alt` and `type`. */
  datatype Image = Image(url: string, alt: Option<string>, kind: ImageKind)

  const PHOTO_CONTAINER := ".e9fk-photoContainer"
  const PICTURE := "picture"
  const SOURCE := "source"
  const PHOTO := "img.e9fk-photo"

  /** The mobile image: the stripped `srcset` of the `source` element. */
  function MobileImage(picture: Elem): (r: seq<Image>)
    ensures |r| <= 1 && forall i | 0 <= i < |r| :: r[i].kind == Mobile && r[i].alt.None?
  {
    match FindElement(Live(picture), SOURCE)
    case Raise(_) => []
    case Ok(s) =>
      var srcset := Attr(s, "srcset");
      if Truthy(srcset) then [Image(Strip(srcset.value), None, Mobile)] else []
  }

  /** The URL of one `srcset` entry: its stripped text up to the first space. */
  function SrcsetUrl(entry: string): string { SplitOn(Strip(entry), ' ')[0] }

  /** One high-resolution image per comma-separated `srcset` entry. */
  function HighResImages(srcset: string, alt: Option<string>): (r: seq<Image>)
    ensures |r| == |SplitOn(srcset, ',')|
    ensures forall i | 0 <= i < |r| :: r[i].kind == HighRes && r[i].alt == alt
  {
    var entries := SplitOn(srcset, ',');
    seq(|entries|, i requires 0 <= i < |entries| => Image(SrcsetUrl(entries[i]), alt, HighRes))
  }

  /** The main image and its high-resolution versions. */
  function MainImages(picture: Elem): (r: seq<Image>)
    ensures forall i | 0 <= i < |r| :: r[i].kind == Main || r[i].kind == HighRes
    ensures forall i | 0 <= i < |r| :: r[i].kind == Main ==> i == 0
  {
    match FindElement(Live(picture), PHOTO)
    case Raise(_) => []
    case Ok(img) =>
      var src, alt, srcset := Attr(img, "src"), Attr(img, "alt"), Attr(img, "srcset");
      (if Truthy(src) then [Image(src.value, alt, Main)] else [])
        + (if Truthy(srcset) then HighResImages(srcset.value, alt) else [])
  }

  /** extract_hotel_images: a missing photo container or picture gives []. */
  function HotelImages(hotel: Item): seq<Image> {
    match FindElement(hotel, PHOTO_CONTAINER)
    case Raise(_) => []
    case Ok(c) =>
      match FindElement(Live(c), PICTURE)
      case Raise(_) => []
      case Ok(p) => MobileImage(p) + MainImages(p)
  }

  /** The image of one `srcset` entry. */
  function EntryImage(entry: string, alt: Option<string>): Image {
    Image(SrcsetUrl(entry), alt, HighRes)
  }

  /** The `srcset` loop. */
  method HighResLoop(srcset: string, alt: Option<string>) returns (images: seq<Image>)
    ensures images == HighResImages(srcset, alt)
  {
    var entries := SplitOn(srcset, ',');
    ghost var f := e => EntryImage(e, alt);
    images := [];
    for i := 0 to |entries|
      invariant |images| == i
      invariant MapsPrefix(images, entries, f)
    {
      var parts := SplitOn(Strip(entries[i]), ' ');
      var img := Image(parts[0], alt, HighRes);
      assert img == f(entries[i]);
      MapsPrefixSnoc(images, entries, f);
      images := images + [img];
    }
    HighResAll(srcset, alt, images);
  }

  lemma HighResAll(srcset: string, alt: Option<string>, images: seq<Image>)
    requires |images| == |SplitOn(srcset, ',')|
    requires MapsPrefix(images, SplitOn(srcset, ','), e => EntryImage(e, alt))
    ensures images == HighResImages(srcset, alt)
  {
  }

  /** The main-image block of extract_hotel_images. */
  method ExtractMainImages(picture: Elem) returns (images: seq<Image>)
    ensures images == MainImages(picture)
  {
    var img := FindElement(Live(picture), PHOTO);
    if img.Raise? {
      return [];
    }
    var src, alt, srcset := Attr(img.value, "src"), Attr(img.value, "alt"), Attr(img.value, "srcset");
    var main := if Truthy(src) then [Image(src.value, alt, Main)] else [];
    var high := [];
    if Truthy(srcset) {
      high := HighResLoop(srcset.value, alt);
    }
    images := main + high;
  }

  method ExtractHotelImages(hotel: Item) returns (images: seq<Image>)
    ensures images == HotelImages(hotel)
  {
    var container := FindElement(hotel, PHOTO_CONTAINER);
    if container.Raise? {
      return [];
    }
    var picture := FindElement(Live(container.value), PICTURE);
    if picture.Raise? {
      return [];
    }
    var main := ExtractMainImages(picture.value);
    images := MobileImage(picture.value) + main;
  }

  function Rank(k: ImageKind): nat {
    match k
    case Mobile => 0
    case Main => 1
    case HighRes => 2
    case Detail => 3
  }

  /** Mobile first, then main, then the high-resolution versions, with at
      most one image of each kind but the last. */
  predicate Ordered(imgs: seq<Image>) {
    forall i, j | 0 <= i < j < |imgs| ::
      Rank(imgs[i].kind) <= Rank(imgs[j].kind) && (imgs[i].kind == imgs[j].kind ==> imgs[i].kind == HighRes)
  }

  lemma OrderedJoin(m: seq<Image>, n: seq<Image>)
    requires |m| <= 1 && forall i | 0 <= i < |m| :: m[i].kind == Mobile
    requires forall i | 0 <= i < |n| :: n[i].kind == Main || n[i].kind == HighRes
    requires forall i | 0 <= i < |n| :: n[i].kind == Main ==> i == 0
    ensures Ordered(m + n)
  {
    var imgs := m + n;
    forall i, j | 0 <= i < j < |imgs|
      ensures Rank(imgs[i].kind) <= Rank(imgs[j].kind) && (imgs[i].kind == imgs[j].kind ==> imgs[i].kind == HighRes)
    {
      if i < |m| {
        assert imgs[i] == m[i] && imgs[j] == n[j - |m|];
      } else {
        assert imgs[i] == n[i - |m|] && imgs[j] == n[j - |m|];
      }
    }
  }

  /** The search-result images come mobile first, then main, then the
      high-resolution versions; at most one mobile and one main image, and no
      detail image. */
  lemma ImageOrder(hotel: Item)
    ensures Ordered(HotelImages(hotel))
    ensures forall i | 0 <= i < |HotelImages(hotel)| :: HotelImages(hotel)[i].kind != Detail
  {
    match FindElement(hotel, PHOTO_CONTAINER)
    case Raise(_) =>
    case Ok(c) =>
      match FindElement(Live(c), PICTURE)
      case Raise(_) =>
      case Ok(p) =>
        var m, n := MobileImage(p), MainImages(p);
        OrderedJoin(m, n);
        assert HotelImages(hotel) == m + n;
        forall i | 0 <= i < |m + n| ensures (m + n)[i].kind != Detail {
          if i < |m| { assert (m + n)[i] == m[i]; } else { assert (m + n)[i] == n[i - |m|]; }
        }
  }

  /** A high-resolution URL is the start of its stripped entry, up to a space
      or the end, and holds no space. */
  lemma SrcsetUrlSpec(entry: string)
    ensures var s, u := Strip(entry), SrcsetUrl(entry);
      |u| <= |s| && s[..|u|] == u && ' ' !in u && (|u| < |s| ==> s[|u|] == ' ')
  {
    SplitOnFirst(Strip(entry), ' ');
  }

  // ------------------------------------------------------- detail-page images

  const DETAIL_CONTAINER := ".c1E0k-photo-container"
  const DETAIL_ITEMS := ".f800.f800-mod-pres-default"
  const DETAIL_PHOTO := ".f800-image"

  /** The image one photo item offers: `src` must be true. */
  function DetailCandidate(item: Item): (r: Option<Image>)
    ensures r.Some? ==> r.value.url != "" && r.value.kind == Detail
  {
    match FindElement(item, DETAIL_PHOTO)
    case Raise(_) => None
    case Ok(img) =>
      var src := Attr(img, "src");
      if Truthy(src) then Some(Image(src.value, Attr(img, "alt"), Detail)) else None
  }

  function Url(i: Image): string { i.url }

  /** extract_detail_page_images: [] when the photo container never appears or
      its lookup raises; otherwise one image per distinct URL. */
  function DetailImages(page: Elem): seq<Image> {
    match WaitForElement(Live(page), DETAIL_CONTAINER)
    case Ok(Some(_)) => AddUnique([], FilterMap(Children(Live(page), DETAIL_ITEMS), DetailCandidate), Url)
    case _ => []
  }

  method ExtractDetailPageImages(page: Elem) returns (images: seq<Image>)
    ensures images == DetailImages(page)
  {
    var container := WaitForElement(Live(page), DETAIL_CONTAINER);
    if !(container.Ok? && container.value.Some?) {
      return [];
    }
    var items := Children(Live(page), DETAIL_ITEMS);
    images := [];
    ghost var candidates: seq<Image> := [];
    var i := 0;
    while i < |items|
      invariant 0 <= i <= |items|
      invariant candidates == FilterMap(items[..i], DetailCandidate)
      invariant images == AddUnique([], candidates, Url)
    {
      FilterMapPrefix(items, i, DetailCandidate);
      var found := FindElement(items[i], DETAIL_PHOTO);
      if found.Ok? {
        var src := Attr(found.value, "src");
        if Truthy(src) {
          var img := Image(src.value, Attr(found.value, "alt"), Detail);
          AddUniqueSnoc([], candidates, img, Url);
          if !HasKey(images, Url, src.value) {
            images := images + [img];
          }
          candidates := candidates + [img];
        }
      }
      i := i + 1;
    }
    assert items[..i] == items;
  }

  /** The detail images are the first image of every distinct URL, in page
      order, and none at all without the photo container. */
  lemma DetailImagesSpec(page: Elem)
    ensures !Probe(Live(page), DETAIL_CONTAINER).Found? ==> DetailImages(page) == []
    ensures Probe(Live(page), DETAIL_CONTAINER).Found? ==>
      FirstOccurrences(DetailImages(page), FilterMap(Children(Live(page), DETAIL_ITEMS), DetailCandidate), Url)
  {
    if Probe(Live(page), DETAIL_CONTAINER).Found? {
      var fm := FilterMap(Children(Live(page), DETAIL_ITEMS), DetailCandidate);
      assert [] + fm == fm;
      AddUniqueSpec([], fm, Url);
    }
  }

  /** Every detail image has a non-empty URL and the detail type. */
  lemma DetailImagesValid(page: Elem)
    ensures forall i | 0 <= i < |DetailImages(page)| ::
      DetailImages(page)[i].url != "" && DetailImages(page)[i].kind == Detail
  {
    var items := Children(Live(page), DETAIL_ITEMS);
    if Probe(Live(page), DETAIL_CONTAINER).Found? {
      var fm := FilterMap(items, DetailCandidate);
      DetailImagesSpec(page);
      var r := DetailImages(page);
      forall i | 0 <= i < |r| ensures r[i].url != "" && r[i].kind == Detail {
        var n := FirstWithKey(fm, Url, Url(r[i]));
        FilterMapMembers(items, DetailCandidate, fm[n]);
      }
    }
  }

  // ----------------------------------------------------------- basic card info

  /** The `review_scores` dict. */
  datatype ReviewScores = ReviewScores(rating: Option<real>, count: Option<nat>)

  const NoScores := ReviewScores(None, None)

  /** The `info` dict of a result card. */
  datatype Listing = Listing(
    hotelName: string,
    detailUrl: Option<string>,
    location: string,
    reviewScores: ReviewScores,
    price: Option<string>,
    images: seq<Image>)

  /** The review scores: both lookups must succeed, `float` of the stripped
      rating text (`parseFloat`, None where Python raises) and `int` of the
      review text's digits must both convert; otherwise both are None. */
  function Scores(hotel: Item, parseFloat: string -> Option<real>): ReviewScores {
    match FindElement(hotel, BasicInfo.HOTEL_RATING)
    case Raise(_) => NoScores
    case Ok(r) =>
      match FindElement(hotel, BasicInfo.HOTEL_REVIEWS)
      case Raise(_) => NoScores
      case Ok(v) =>
        match parseFloat(Strip(r.text))
        case None => NoScores
        case Some(x) =>
          var digits := DigitsOnly(v.text);
          if digits == "" then NoScores else ReviewScores(Some(x), Some(DigitsValue(digits)))
  }

  /** extract_hotel_basic_info: None when the name or the location lookup raises. */
  function ListingOf(hotel: Item, parseFloat: string -> Option<real>): Option<Listing> {
    match FindElement(hotel, BasicInfo.HOTEL_NAME)
    case Raise(_) => None
    case Ok(name) =>
      match FindElement(hotel, BasicInfo.HOTEL_LOCATION)
      case Raise(_) => None
      case Ok(loc) =>
        var price := match FindElement(hotel, BasicInfo.PRICE_AMOUNT)
          case Ok(p) => Some(Strip(p.text))
          case Raise(_) => None;
        Some(Listing(Strip(name.text), Attr(name, "href"), Strip(loc.text), Scores(hotel, parseFloat),
                     price, HotelImages(hotel)))
  }

  method ExtractListing(hotel: Item, parseFloat: string -> Option<real>) returns (info: Option<Listing>)
    ensures info == ListingOf(hotel, parseFloat)
  {
    var name := FindElement(hotel, BasicInfo.HOTEL_NAME);
    if name.Raise? {
      return None;
    }
    var loc := FindElement(hotel, BasicInfo.HOTEL_LOCATION);
    if loc.Raise? {
      return None;
    }
    var priceElem := FindElement(hotel, BasicInfo.PRICE_AMOUNT);
    var price := if priceElem.Ok? then Some(Strip(priceElem.value.text)) else None;
    var images := ExtractHotelImages(hotel);
    return Some(Listing(Strip(name.value.text), Attr(name.value, "href"), Strip(loc.value.text),
                        Scores(hotel, parseFloat), price, images));
  }

  /** A card has basic information exactly when its name and location are
      found; the name and the location are stripped and the URL is the name
      link's `href`. */
  lemma ListingRequires(hotel: Item, parseFloat: string -> Option<real>)
    ensures ListingOf(hotel, parseFloat).Some? <==>
      Probe(hotel, BasicInfo.HOTEL_NAME).Found? && Probe(hotel, BasicInfo.HOTEL_LOCATION).Found?
    ensures ListingOf(hotel, parseFloat).Some? ==>
      var l := ListingOf(hotel, parseFloat).value;
      var name := Probe(hotel, BasicInfo.HOTEL_NAME).elem;
      l.hotelName == Strip(name.text) && l.detailUrl == Attr(name, "href")
      && l.location == Strip(Probe(hotel, BasicInfo.HOTEL_LOCATION).elem.text)
      && l.images == HotelImages(hotel)
  {
  }

  /** The rating and the review count are present together, and only when
      both elements are found and both conversions succeed. */
  lemma ScoresTogether(hotel: Item, parseFloat: string -> Option<real>)
    ensures Scores(hotel, parseFloat).rating.Some? <==> Scores(hotel, parseFloat).count.Some?
    ensures Scores(hotel, parseFloat).rating.Some? ==>
      && Probe(hotel, BasicInfo.HOTEL_RATING).Found?
      && Probe(hotel, BasicInfo.HOTEL_REVIEWS).Found?
      && Some(Scores(hotel, parseFloat).rating.value) == parseFloat(Strip(Probe(hotel, BasicInfo.HOTEL_RATING).elem.text))
      && DigitsOnly(Probe(hotel, BasicInfo.HOTEL_REVIEWS).elem.text) != ""
      && Scores(hotel, parseFloat).count.value ==
           DigitsValue(DigitsOnly(Probe(hotel, BasicInfo.HOTEL_REVIEWS).elem.text))
  {
  }
}
