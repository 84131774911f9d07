/** RoomExtractor (scraper/src/extractors/room.py): the bed configuration
    parsed from "N bed..." texts, and the per-card room records of a detail
    page. */
module Room {
  import opened Wrappers
  import opened PyStr
  import opened Seqs
  import opened Dom
  import opened Retry
  import Price
  import Policies

  const BED_SELECTOR := ".c5NJT-bed-types, .BZag-bed-types"
  const ROOM_CARD_SELECTOR := ".c5l3f"
  const ROOM_TYPE_SELECTOR := ".c5NJT div"
  const ROOM_PRICE_SELECTOR := ".D9i2-price .C9NJ-amount"
  const PROVIDER_SELECTOR := ".c2pAq-logo"

  /** The `bed_info` dict. */
  datatype BedInfo = BedInfo(bedType: Option<string>, count: Option<nat>, extra: seq<string>)

  const NoBeds := BedInfo(None, None, [])

  /** What one matching text sets: the count and the type. */
  datatype BedPair = BedPair(count: nat, bedType: string)

  // ------------------------------------------------------------ bed parse

  /** Token `i` is all digits and token `i + 1` mentions "bed". */
  predicate IsBedPair(parts: seq<string>, i: int) {
    0 <= i && i + 1 < |parts| && IsDigits(parts[i]) && Contains(parts[i + 1], "bed")
  }

  /** The first index at or after `i` that starts a digits/bed pair. */
  function BedPairFrom(parts: seq<string>, i: nat): (r: Option<nat>)
    ensures r.Some? ==> i <= r.value && IsBedPair(parts, r.value)
    ensures r.Some? ==> forall j | i <= j < r.value :: !IsBedPair(parts, j)
    ensures r.None? ==> forall j | i <= j < |parts| :: !IsBedPair(parts, j)
    decreases |parts| - i
  {
    if i >= |parts| then None
    else if IsBedPair(parts, i) then Some(i)
    else BedPairFrom(parts, i + 1)
  }

  /** What a lowercased, stripped bed text sets, if anything: the count of
      the first digits token followed by a "bed" token, and the tokens from
      that "bed" token on, joined by single spaces. */
  function BedParse(text: string): Option<BedPair> {
    if !Contains(text, "bed") then None else PairOf(Split(text))
  }

  /** The pair the token loop finds in `parts`, if any. */
  function PairOf(parts: seq<string>): Option<BedPair> {
    match BedPairFrom(parts, 0)
    case None => None
    case Some(i) => Some(BedPair(DigitsValue(parts[i]), JoinSpace(parts[i + 1..])))
  }

  /** One step of the element loop on a text that was read. */
  function BedStep(b: BedInfo, text: string): BedInfo {
    if Contains(text, "bed") then
      match BedParse(text)
      case None => b
      case Some(p) => b.(count := Some(p.count), bedType := Some(p.bedType))
    else b.(extra := b.extra + [text])
  }

  /** `element.text.strip().lower()` of an attached element. */
  function BedText(it: Item): (r: Option<string>)
    ensures r.Some? <==> it.Live?
  {
    match it
    case Detached => None
    case Live(e) => Some(Lower(Strip(e.text)))
  }

  /** The dict after the element loop; a stale element is skipped. */
  function BedsOf(items: seq<Item>): BedInfo {
    if items == [] then NoBeds
    else
      var b := BedsOf(items[..|items| - 1]);
      match BedText(items[|items| - 1])
      case None => b
      case Some(t) => BedStep(b, t)
  }

  lemma BedsOfSnoc(s: seq<Item>, x: Item)
    ensures BedsOf(s + [x]) == if x.Live? then BedStep(BedsOf(s), Lower(Strip(x.elem.text))) else BedsOf(s)
  {
    assert (s + [x])[..|s|] == s;
  }

  lemma BedsOfPrefix(items: seq<Item>, k: nat)
    requires k < |items|
    ensures BedsOf(items[..k + 1]) ==
      if items[k].Live? then BedStep(BedsOf(items[..k]), Lower(Strip(items[k].elem.text))) else BedsOf(items[..k])
  {
    assert items[..k + 1][..k] == items[..k];
  }

  /** RoomExtractor.extract_bed_info. */
  function BedInfoOf(room: Item): BedInfo {
    match WaitForElements(room, BED_SELECTOR)
    case Raise(_) => NoBeds
    case Ok(items) => BedsOf(items)
  }

  /** The token loop of one bed text, with its `break`. */
  method ParseBedText(text: string) returns (r: Option<BedPair>)
    requires Contains(text, "bed")
    ensures r == BedParse(text)
  {
    var parts := Split(text);
    r := None;
    var i := 0;
    while i < |parts|
      invariant 0 <= i <= |parts|
      invariant BedPairFrom(parts, 0) == BedPairFrom(parts, i)
    {
      if IsDigits(parts[i]) && i + 1 < |parts| && Contains(parts[i + 1], "bed") {
        r := Some(BedPair(DigitsValue(parts[i]), JoinSpace(parts[i + 1..])));
        break;
      }
      i := i + 1;
    }
  }

  /** RoomExtractor.extract_bed_info. */
  method ExtractBedInfo(room: Item) returns (b: BedInfo)
    ensures b == BedInfoOf(room)
  {
    var found := WaitForElements(room, BED_SELECTOR);
    if found.Raise? {
      return NoBeds;
    }
    b := ParseBeds(found.value);
  }

  /** The outer loop of extract_bed_info, over the bed elements. */
  method ParseBeds(items: seq<Item>) returns (b: BedInfo)
    ensures b == BedsOf(items)
  {
    b := NoBeds;
    var k := 0;
    while k < |items|
      invariant 0 <= k <= |items|
      invariant b == BedsOf(items[..k])
    {
      b := ReadBed(b, items, k);
      k := k + 1;
    }
    assert items[..k] == items;
  }

  /** One element of the outer loop: a stale one is skipped. */
  method ReadBed(b: BedInfo, items: seq<Item>, k: nat) returns (c: BedInfo)
    requires k < |items| && b == BedsOf(items[..k])
    ensures c == BedsOf(items[..k + 1])
  {
    BedsOfPrefix(items, k);
    c := b;
    var read := Text(items[k]);
    if read.Ok? {
      c := ReadBedText(b, Lower(Strip(read.value)));
    }
  }

  /** The body of the outer loop for one lowercased, stripped text. */
  method ReadBedText(b: BedInfo, text: string) returns (c: BedInfo)
    ensures c == BedStep(b, text)
  {
    c := b;
    if Contains(text, "bed") {
      var p := ParseBedText(text);
      if p.Some? {
        c := c.(count := Some(p.value.count), bedType := Some(p.value.bedType));
      }
    } else {
      c := c.(extra := c.extra + [text]);
    }
  }

  // --------------------------------------------------------- bed properties

  /** The lowercased texts of the attached elements, in order. */
  function BedTexts(items: seq<Item>): seq<string> {
    FilterMap(items, BedText)
  }

  predicate Parsed(t: string) { BedParse(t).Some? }

  function NoBed(t: string): Option<string> {
    if Contains(t, "bed") then None else Some(t)
  }

  lemma BedStepExtra(b: BedInfo, t: string)
    ensures BedStep(b, t).extra == b.extra + Pick(NoBed(t))
  {
  }

  lemma BedStepPair(b: BedInfo, t: string)
    ensures Parsed(t) ==> BedStep(b, t).count == Some(BedParse(t).value.count)
    ensures Parsed(t) ==> BedStep(b, t).bedType == Some(BedParse(t).value.bedType)
    ensures !Parsed(t) ==> BedStep(b, t).count == b.count && BedStep(b, t).bedType == b.bedType
  {
  }

  /** `extra` lists, in order, the texts without "bed". */
  lemma {:induction false} BedsOfExtra(items: seq<Item>)
    ensures BedsOf(items).extra == FilterMap(BedTexts(items), NoBed)
  {
    if items != [] {
      var init, x := items[..|items| - 1], items[|items| - 1];
      assert items == init + [x];
      BedsOfExtra(init);
      BedsOfSnoc(init, x);
      FilterMapSnoc(init, x, BedText);
      if x.Live? {
        var t := Lower(Strip(x.elem.text));
        assert BedTexts(items) == BedTexts(init) + [t];
        FilterMapSnoc(BedTexts(init), t, NoBed);
        BedStepExtra(BedsOf(init), t);
      } else {
        assert BedTexts(items) == BedTexts(init);
      }
    }
  }

  /** The count and the type as the last text that parses set them, or
      None when none does. */
  function LastPair(texts: seq<string>): (Option<nat>, Option<string>) {
    match LastMatch(texts, Parsed)
    case None => (None, None)
    case Some(t) => if Parsed(t) then (Some(BedParse(t).value.count), Some(BedParse(t).value.bedType)) else (None, None)
  }

  /** Count and type come from the last text that parses: a later match
      overwrites an earlier one, and a "bed" text that does not parse
      changes neither. */
  lemma {:induction false} BedsOfPair(items: seq<Item>)
    ensures (BedsOf(items).count, BedsOf(items).bedType) == LastPair(BedTexts(items))
  {
    if items != [] {
      var init, x := items[..|items| - 1], items[|items| - 1];
      assert items == init + [x];
      BedsOfPair(init);
      BedsOfSnoc(init, x);
      FilterMapSnoc(init, x, BedText);
      if x.Live? {
        var t := Lower(Strip(x.elem.text));
        assert BedTexts(items) == BedTexts(init) + [t];
        LastMatchSnoc(BedTexts(init), t, Parsed);
        BedStepPair(BedsOf(init), t);
      } else {
        assert BedTexts(items) == BedTexts(init);
      }
    }
  }

  /** A parsed count and type describe the text: the count is the value of a
      digits token, and the type is the rest of the text from a token that
      mentions "bed". */
  lemma BedParseSound(text: string)
    requires BedParse(text).Some?
    ensures exists i | 0 <= i < |Split(text)| - 1 ::
      && IsBedPair(Split(text), i)
      && BedParse(text).value == BedPair(DigitsValue(Split(text)[i]), JoinSpace(Split(text)[i + 1..]))
      && forall j | 0 <= j < i :: !IsBedPair(Split(text), j)
  {
    var parts := Split(text);
    var i := BedPairFrom(parts, 0).value;
    assert BedParse(text).value == BedPair(DigitsValue(parts[i]), JoinSpace(parts[i + 1..]));
  }

  /** A text whose tokens are "N", "beds", "in", "room" gives count N and
      type "beds in room". */
  lemma BedsInRoom(text: string, n: string)
    requires IsDigits(n) && text == n + " beds in room"
    ensures BedParse(text) == Some(BedPair(DigitsValue(n), "beds in room"))
  {
    var ts := [n, "beds", "in", "room"];
    assert ts[1..] == ["beds", "in", "room"];
    BedsInRoomTokens(text, n);
    BedsInRoomTail(ts);
    BedsInRoomHasBed(n);
    BedParseFirst(text, ts);
  }

  /** A text with "bed" whose first two tokens are a pair gives that pair. */
  lemma BedParseFirst(text: string, parts: seq<string>)
    requires Contains(text, "bed") && Split(text) == parts && IsBedPair(parts, 0)
    ensures BedParse(text) == Some(BedPair(DigitsValue(parts[0]), JoinSpace(parts[1..])))
  {
    PairOfFirst(parts);
  }

  lemma PairOfFirst(parts: seq<string>)
    requires IsBedPair(parts, 0)
    ensures PairOf(parts) == Some(BedPair(DigitsValue(parts[0]), JoinSpace(parts[1..])))
  {
    assert BedPairFrom(parts, 0) == Some(0);
  }

  lemma BedsInRoomHasBed(n: string)
    ensures Contains(n + " beds in room", "bed")
  {
    assert OccursAt("beds", "bed", 0);
    assert n + " beds in room" == (n + " ") + "beds" + " in room";
    ContainsInfix(n + " ", "beds", " in room", "bed");
  }

  /** The tokens of "N beds in room". */
  lemma BedsInRoomTokens(text: string, n: string)
    requires IsDigits(n) && text == n + " beds in room"
    ensures Split(text) == [n, "beds", "in", "room"]
  {
    var ts := [n, "beds", "in", "room"];
    DigitsNoSpace(n);
    assert ts[1..] == ["beds", "in", "room"];
    assert ts[1..][1..] == ["in", "room"];
    assert ts[1..][1..][1..] == ["room"];
    assert JoinSpace(ts[1..][1..]) == "in room";
    assert JoinSpace(ts[1..]) == "beds in room";
    assert JoinSpace(ts) == text;
    SplitJoinSpace(ts);
  }

  /** In the tokens "N", "beds", "in", "room" the first two are a pair and
      the rest from "beds" on joins back to "beds in room". */
  lemma BedsInRoomTail(ts: seq<string>)
    requires |ts| == 4 && IsDigits(ts[0]) && ts[1..] == ["beds", "in", "room"]
    ensures IsBedPair(ts, 0) && JoinSpace(ts[0 + 1..]) == "beds in room"
  {
    assert OccursAt("beds", "bed", 0);
    assert ts[1] == "beds";
    var t := ts[1..];
    assert t[1..] == ["in", "room"];
    assert t[1..][1..] == ["room"];
    assert JoinSpace(t[1..]) == "in room";
  }

  /** A digits token holds no whitespace. */
  lemma DigitsNoSpace(n: string)
    requires IsDigits(n)
    ensures NoSpace(n)
  {
    forall i | 0 <= i < |n| ensures !IsSpace(n[i]) { assert IsDigit(n[i]); }
  }

  /** "N queen beds" sets nothing: the token after the digits is "queen". */
  lemma QueenBedsNoCount(text: string, n: string)
    requires IsDigits(n) && text == n + " queen beds"
    ensures BedParse(text) == None
  {
    var ts := [n, "queen", "beds"];
    DigitsNoSpace(n);
    assert Split(text) == ts by {
      assert ts[1..] == ["queen", "beds"];
      assert ts[1..][1..] == ["beds"];
      assert JoinSpace(ts[1..]) == "queen beds";
      assert JoinSpace(ts) == text;
      SplitJoinSpace(ts);
    }
    assert !Contains("queen", "bed") by {
      assert 'b' !in "queen";
      if Contains("queen", "bed") { ContainsChar("queen", "bed", 0); }
    }
    assert !IsDigits("queen") by { assert !IsDigit("queen"[0]); }
    assert !IsBedPair(ts, 0);
    assert !IsBedPair(ts, 1);
    assert !IsBedPair(ts, 2);
    assert forall j | 0 <= j < |ts| :: !IsBedPair(ts, j);
  }

  /** A "bed" text that does not parse adds nothing to `extra` and leaves the
      count and the type as they were. */
  lemma UnparsedBedIgnored(b: BedInfo, text: string)
    requires Contains(text, "bed") && BedParse(text).None?
    ensures BedStep(b, text) == b
  {
  }

  // ------------------------------------------------------------ room cards

  /** The `room_info` dict. Once a card is processed, `bed_config` and
      `policies` are dicts with keys, so the card is always kept. */
  datatype RoomInfo = RoomInfo(
    roomType: Option<string>,
    price: Option<Price.PriceInfo>,
    provider: Option<string>,
    bedConfig: BedInfo,
    policies: Policies.Policies)

  /** The body of the `try` block for one card: any of the three lookups
      raising skips the card. */
  function Card(room: Item): Outcome<RoomInfo> {
    match FindRetry(room, ROOM_TYPE_SELECTOR)
    case Raise(e) => Raise(e)
    case Ok(typeElem) =>
      match FindRetry(room, ROOM_PRICE_SELECTOR)
      case Raise(e) => Raise(e)
      case Ok(priceElem) =>
        match FindRetry(room, PROVIDER_SELECTOR)
        case Raise(e) => Raise(e)
        case Ok(providerElem) =>
          Ok(RoomInfo(
            if typeElem.Some? then Some(Strip(typeElem.value.text)) else None,
            if priceElem.Some? then Some(Price.Extract(priceElem)) else None,
            if providerElem.Some? then Attr(providerElem.value, "alt") else None,
            BedInfoOf(room),
            Policies.Extract(room)))
  }

  function CardRecord(room: Item): Option<RoomInfo> {
    match Card(room)
    case Raise(_) => None
    case Ok(r) => Some(r)
  }

  /** RoomExtractor.extract_rooms. */
  function Rooms(page: Elem): seq<RoomInfo> {
    match WaitForElements(Live(page), ROOM_CARD_SELECTOR)
    case Raise(_) => []
    case Ok(cards) => FilterMap(cards, CardRecord)
  }

  /** The `try` block for one card: the record, or None when a lookup raised
      and the `except` clause moved on to the next card. */
  method ProcessCard(room: Item) returns (r: Option<RoomInfo>)
    ensures r == CardRecord(room)
  {
    var typeElem := FindWithRetry(room, ROOM_TYPE_SELECTOR);
    if typeElem.Raise? {
      return None;
    }
    var priceElem := FindWithRetry(room, ROOM_PRICE_SELECTOR);
    if priceElem.Raise? {
      return None;
    }
    var providerElem := FindWithRetry(room, PROVIDER_SELECTOR);
    if providerElem.Raise? {
      return None;
    }
    var info := RoomInfo(None, None, None, NoBeds, Policies.NoPolicies);
    if typeElem.value.Some? {
      info := info.(roomType := Some(Strip(typeElem.value.value.text)));
    }
    if priceElem.value.Some? {
      info := info.(price := Some(Price.Extract(priceElem.value)));
    }
    if providerElem.value.Some? {
      info := info.(provider := Attr(providerElem.value.value, "alt"));
    }
    var beds := ExtractBedInfo(room);
    var policies := Policies.ExtractPolicies(room);
    info := info.(bedConfig := beds, policies := policies);
    return Some(info);
  }

  /** The card loop of RoomExtractor.extract_rooms. */
  method ExtractRooms(page: Elem) returns (rooms: seq<RoomInfo>)
    ensures rooms == Rooms(page)
  {
    rooms := [];
    var found := WaitForElements(Live(page), ROOM_CARD_SELECTOR);
    var cards := found.value;
    var k := 0;
    while k < |cards|
      invariant 0 <= k <= |cards|
      invariant rooms == FilterMap(cards[..k], CardRecord)
    {
      rooms := AddCard(rooms, cards, k);
      k := k + 1;
    }
    assert cards[..k] == cards;
  }

  /** One card of the loop of extract_rooms. */
  method AddCard(rooms: seq<RoomInfo>, cards: seq<Item>, k: nat) returns (r: seq<RoomInfo>)
    requires k < |cards| && rooms == FilterMap(cards[..k], CardRecord)
    ensures r == FilterMap(cards[..k + 1], CardRecord)
  {
    var room := cards[k];
    FilterMapPrefix(cards, k, CardRecord);
    var card := ProcessCard(room);
    r := rooms + Pick(card);
  }

  // -------------------------------------------------------- card properties

  /** A card is skipped exactly when one of its three lookups meets a stale
      element (a detached card is stale for all of them). */
  lemma CardSkippedIff(room: Item)
    ensures Card(room).Raise? <==>
      Probe(room, ROOM_TYPE_SELECTOR).Stale? || Probe(room, ROOM_PRICE_SELECTOR).Stale? ||
      Probe(room, PROVIDER_SELECTOR).Stale?
  {
  }

  /** In a kept card, the type is the stripped text of the type element, or
      None when it is missing; the price is a price record exactly when the
      price element was found; and bed and policy data are always there. */
  lemma CardFields(room: Item)
    requires Card(room).Ok?
    ensures var r := Card(room).value;
      && (Probe(room, ROOM_TYPE_SELECTOR).Found? ==>
            r.roomType == Some(Strip(Probe(room, ROOM_TYPE_SELECTOR).elem.text)))
      && (Probe(room, ROOM_TYPE_SELECTOR).Missing? ==> r.roomType == None)
      && (r.price.Some? <==> Probe(room, ROOM_PRICE_SELECTOR).Found?)
      && (r.price.Some? ==> r.price.value == Price.Extract(Some(Probe(room, ROOM_PRICE_SELECTOR).elem)))
      && r.bedConfig == BedInfoOf(room)
      && r.policies == Policies.Extract(room)
  {
  }

  /** The room list holds one record per card that was not skipped, in card
      order, and no other: every card is kept unless a lookup raised. */
  lemma {:induction false} RoomsKept(cards: seq<Item>)
    ensures |FilterMap(cards, CardRecord)| <= |cards|
    ensures (forall i | 0 <= i < |cards| :: Card(cards[i]).Ok?) ==>
      |FilterMap(cards, CardRecord)| == |cards|
    ensures forall r :: r in FilterMap(cards, CardRecord) <==>
      exists i | 0 <= i < |cards| :: Card(cards[i]) == Ok(r)
  {
    if forall i | 0 <= i < |cards| :: Card(cards[i]).Ok? {
      FilterMapAll(cards, CardRecord);
    }
    forall r ensures r in FilterMap(cards, CardRecord) <==>
      exists i | 0 <= i < |cards| :: Card(cards[i]) == Ok(r)
    {
      FilterMapMembers(cards, CardRecord, r);
    }
  }
}
