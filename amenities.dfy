/** AmenitiesExtractor.extract (scraper/src/extractors/amenities.py): each
    non-empty amenity text goes to general, room or services by keyword. The
    same loop is AmenitiesOf for scraper/src/hotel_scraper.py, which reads
    the list without waiting. */
module Amenities {
  import opened Wrappers
  import opened PyStr
  import opened Seqs
  import opened Dom
  import opened Retry

  const AMENITY_SELECTOR := "[aria-label=\"Amenities\"] .BNDX, .BNDX-mod-presentation-default"

  const GENERAL_WORDS: seq<string> := ["wifi", "parking", "pool", "restaurant", "gym"]
  const ROOM_WORDS: seq<string> := ["bed", "tv", "bathroom", "air"]

  /** The `amenities` dict with its three lists. */
  datatype Amenities = Amenities(general: seq<string>, room: seq<string>, services: seq<string>)

  const NoAmenities := Amenities([], [], [])

  datatype Category = General | RoomCategory | Services

  /** The category of a stripped amenity text: a general keyword wins over a
      room keyword, and a text with neither is a service. */
  function Categorize(text: string): Category {
    if AnyIn(GENERAL_WORDS, Lower(text)) then General
    else if AnyIn(ROOM_WORDS, Lower(text)) then RoomCategory
    else Services
  }

  function Add(a: Amenities, text: string): Amenities {
    match Categorize(text)
    case General => a.(general := a.general + [text])
    case RoomCategory => a.(room := a.room + [text])
    case Services => a.(services := a.services + [text])
  }

  /** The dict after the loop over `items`: stale elements and empty texts
      contribute nothing. */
  function AmenitiesOf(items: seq<Item>): Amenities {
    if items == [] then NoAmenities
    else
      var a := AmenitiesOf(items[..|items| - 1]);
      match StrippedText(items[|items| - 1])
      case None => a
      case Some(t) => if t == "" then a else Add(a, t)
  }

  /** AmenitiesExtractor.extract on the current page. */
  function Extract(page: Elem): Amenities {
    match WaitForElements(Live(page), AMENITY_SELECTOR)
    case Raise(_) => NoAmenities
    case Ok(items) => AmenitiesOf(items)
  }

  /** The categorising loop over an element list. */
  method CategorizeAll(items: seq<Item>) returns (a: Amenities)
    ensures a == AmenitiesOf(items)
  {
    a := NoAmenities;
    var i := 0;
    while i < |items|
      invariant 0 <= i <= |items|
      invariant a == AmenitiesOf(items[..i])
    {
      a := ReadAmenity(a, items, i);
      i := i + 1;
    }
    assert items[..i] == items;
  }

  /** One pass of the loop: a stale element is skipped. */
  method ReadAmenity(a: Amenities, items: seq<Item>, k: nat) returns (b: Amenities)
    requires k < |items| && a == AmenitiesOf(items[..k])
    ensures b == AmenitiesOf(items[..k + 1])
  {
    AmenitiesOfPrefix(items, k);
    b := a;
    var read := Text(items[k]);
    if read.Ok? {
      b := FileAmenity(a, Strip(read.value));
    }
  }

  /** The `if`/`elif` chain for one stripped text; an empty text is skipped. */
  method FileAmenity(a: Amenities, text: string) returns (b: Amenities)
    ensures b == AddText(a, text)
  {
    b := a;
    if text != "" {
      var low := Lower(text);
      if AnyIn(GENERAL_WORDS, low) {
        b := a.(general := a.general + [text]);
      } else if AnyIn(ROOM_WORDS, low) {
        b := a.(room := a.room + [text]);
      } else {
        b := a.(services := a.services + [text]);
      }
    }
  }

  /** AmenitiesExtractor.extract. */
  method ExtractAmenities(page: Elem) returns (a: Amenities)
    ensures a == Extract(page)
  {
    var found := WaitForElements(Live(page), AMENITY_SELECTOR);
    a := CategorizeAll(found.value);
  }

  function InCategory(c: Category): string -> Option<string> {
    t => if t != "" && Categorize(t) == c then Some(t) else None
  }

  /** The attached, non-empty texts in element order. */
  function Listed(items: seq<Item>): seq<string> {
    FilterMap(LiveTexts(items), NonEmpty)
  }

  /** Each list holds, in element order and with repetitions, exactly the
      attached non-empty texts of its category. */
  lemma {:induction false} AmenitiesOfSpec(items: seq<Item>)
    ensures AmenitiesOf(items).general == FilterMap(LiveTexts(items), InCategory(General))
    ensures AmenitiesOf(items).room == FilterMap(LiveTexts(items), InCategory(RoomCategory))
    ensures AmenitiesOf(items).services == FilterMap(LiveTexts(items), InCategory(Services))
  {
    if items != [] {
      var init, x := items[..|items| - 1], items[|items| - 1];
      assert items == init + [x];
      AmenitiesOfSpec(init);
      AmenitiesOfStep(init, x);
      assert Tracks(AmenitiesOf(items), LiveTexts(items));
    }
  }

  /** The three lists are what the loop over `texts` leaves. */
  predicate Tracks(a: Amenities, texts: seq<string>) {
    && a.general == FilterMap(texts, InCategory(General))
    && a.room == FilterMap(texts, InCategory(RoomCategory))
    && a.services == FilterMap(texts, InCategory(Services))
  }

  /** One loop step on a text that was read. */
  function AddText(a: Amenities, t: string): Amenities {
    if t == "" then a else Add(a, t)
  }

  lemma AmenitiesOfSnoc(init: seq<Item>, x: Item)
    ensures AmenitiesOf(init + [x]) ==
      match StrippedText(x)
      case None => AmenitiesOf(init)
      case Some(t) => AddText(AmenitiesOf(init), t)
  {
    assert (init + [x])[..|init|] == init;
  }

  lemma AmenitiesOfPrefix(items: seq<Item>, k: nat)
    requires k < |items|
    ensures AmenitiesOf(items[..k + 1]) ==
      match StrippedText(items[k])
      case None => AmenitiesOf(items[..k])
      case Some(t) => AddText(AmenitiesOf(items[..k]), t)
  {
    assert items[..k + 1][..k] == items[..k];
  }

  lemma AmenitiesOfStep(init: seq<Item>, x: Item)
    requires Tracks(AmenitiesOf(init), LiveTexts(init))
    ensures Tracks(AmenitiesOf(init + [x]), LiveTexts(init + [x]))
  {
    AmenitiesOfSnoc(init, x);
    if x.Live? {
      LiveTextsSnoc(init, x.elem);
      AddTracks(AmenitiesOf(init), LiveTexts(init), Strip(x.elem.text));
    } else {
      LiveTextsSnocStale(init);
    }
  }

  lemma AddTracks(a: Amenities, s: seq<string>, t: string)
    requires Tracks(a, s)
    ensures Tracks(AddText(a, t), s + [t])
  {
    FilterMapSnoc(s, t, InCategory(General));
    FilterMapSnoc(s, t, InCategory(RoomCategory));
    FilterMapSnoc(s, t, InCategory(Services));
    if t != "" {
      var c := Categorize(t);
      assert InCategory(c)(t) == Some(t);
      assert forall d | d != c :: InCategory(d)(t) == None;
    }
  }

  function Total(a: Amenities): nat { |a.general| + |a.room| + |a.services| }

  /** Every attached non-empty text is in exactly one list: the lengths add
      up to the number of such texts. */
  lemma {:induction false} AmenitiesCount(items: seq<Item>)
    ensures Total(AmenitiesOf(items)) == |Listed(items)|
  {
    if items != [] {
      var init, x := items[..|items| - 1], items[|items| - 1];
      assert items == init + [x];
      AmenitiesCount(init);
      CountStep(init, x);
    }
  }

  lemma CountStep(init: seq<Item>, x: Item)
    requires Total(AmenitiesOf(init)) == |Listed(init)|
    ensures Total(AmenitiesOf(init + [x])) == |Listed(init + [x])|
  {
    AmenitiesOfSnoc(init, x);
    if x.Live? {
      var t := Strip(x.elem.text);
      LiveTextsSnoc(init, x.elem);
      FilterMapSnoc(LiveTexts(init), t, NonEmpty);
      assert |Listed(init + [x])| == |Listed(init)| + |Pick(NonEmpty(t))|;
      if t != "" {
        AddTotal(AmenitiesOf(init), t);
      }
    } else {
      LiveTextsSnocStale(init);
    }
  }

  /** A text seen twice is listed twice: the lists are not deduplicated. */
  lemma Repeated(items: seq<Item>, e: Elem)
    requires Strip(e.text) != ""
    ensures Total(AmenitiesOf(items + [Live(e), Live(e)])) == Total(AmenitiesOf(items)) + 2
  {
    var once := items + [Live(e)];
    assert items + [Live(e), Live(e)] == once + [Live(e)];
    AmenitiesOfSnoc(items, Live(e));
    AmenitiesOfSnoc(once, Live(e));
    AddTotal(AmenitiesOf(items), Strip(e.text));
    AddTotal(AmenitiesOf(once), Strip(e.text));
  }

  /** Adding a text grows exactly one list by one. */
  lemma AddTotal(a: Amenities, t: string)
    requires t != ""
    ensures Total(AddText(a, t)) == Total(a) + 1
  {
  }

  /** A keyword with a character that does not occur in the text is not in it. */
  lemma Absent(s: string, w: string, k: nat)
    requires k < |w| && w[k] !in s
    ensures !Contains(s, w)
  {
    if Contains(s, w) {
      ContainsChar(s, w, k);
    }
  }

  /** "Free WiFi" is general. */
  lemma FreeWifiIsGeneral(t: string)
    requires t == "Free WiFi"
    ensures Categorize(t) == General
  {
    assert OccursAt(Lower(t), "wifi", 5);
    assert Contains(Lower(t), GENERAL_WORDS[0]);
  }

  /** "King bed" is a room amenity. */
  lemma KingBedIsRoom(t: string)
    requires t == "King bed"
    ensures Categorize(t) == RoomCategory
  {
    var low := Lower(t);
    assert low == "king bed";
    assert OccursAt(low, "bed", 5);
    assert Contains(low, ROOM_WORDS[0]);
    Absent(low, GENERAL_WORDS[0], 0);
    Absent(low, GENERAL_WORDS[1], 0);
    Absent(low, GENERAL_WORDS[2], 0);
    Absent(low, GENERAL_WORDS[3], 0);
    Absent(low, GENERAL_WORDS[4], 1);
  }

  /** "Airport Shuttle" is a room amenity, because "airport" contains "air". */
  lemma AirportShuttleIsRoom(t: string)
    requires t == "Airport Shuttle"
    ensures Categorize(t) == RoomCategory
  {
    var low := Lower(t);
    assert low == "airport shuttle";
    assert OccursAt(low, "air", 0);
    assert Contains(low, ROOM_WORDS[3]);
    NoGeneralWord(low);
  }

  /** None of the general keywords occurs in "airport shuttle". */
  lemma NoGeneralWord(low: string)
    requires low == "airport shuttle"
    ensures !AnyIn(GENERAL_WORDS, low)
  {
    Absent(low, GENERAL_WORDS[0], 0);
    Absent(low, GENERAL_WORDS[1], 5);
    NoPool(low);
    Absent(low, GENERAL_WORDS[3], 8);
    Absent(low, GENERAL_WORDS[4], 0);
  }

  /** "pool" does not occur in "airport shuttle": its one 'p' is followed by
      "ort". */
  lemma NoPool(low: string)
    requires low == "airport shuttle"
    ensures !Contains(low, GENERAL_WORDS[2])
  {
    forall i | 0 <= i <= |low| - 4 ensures !OccursAt(low, "pool", i) {
      assert low[i..i + 4][0] == low[i];
      if low[i] == 'p' {
        assert i == 3;
        assert low[i..i + 4][2] == 'r';
      }
    }
  }
}
