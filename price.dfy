/** PriceExtractor.extract (scraper/src/extractors/price.py): the price text
    split into currency symbol and amount, the per-night flag, and the total
    and taxes read from sub-elements. */
module Price {
  import opened Wrappers
  import opened PyStr
  import opened Dom
  import opened Retry

  const TOTAL_SELECTOR := ".D9i2-total"
  const TAXES_SELECTOR := ".D9i2-taxes-fees"

  /** The `price_info` dict: its five keys are always present, and each holds
      None until a branch assigns it. */
  datatype PriceInfo = PriceInfo(
    amount: Option<string>,
    currency: Option<string>,
    perNight: Option<bool>,
    total: Option<string>,
    taxesFees: Option<string>)

  const NoPrice := PriceInfo(None, None, None, None, None)

  /** The tokens part: currency and amount from the first of at least two
      tokens, and the per-night flag. */
  function ParseTokens(text: string): (r: PriceInfo)
    ensures r.total == None && r.taxesFees == None
    ensures r.currency.Some? <==> |Split(text)| >= 2
    ensures r.amount.Some? <==> r.currency.Some?
    ensures r.currency.Some? ==>
      |r.currency.value| == 1 && r.currency.value + r.amount.value == Split(text)[0]
    ensures r.perNight != Some(false)
    ensures r.perNight == Some(true) <==> |Split(text)| >= 2 && Contains(Lower(text), "night")
  {
    var parts := Split(text);
    if |parts| >= 2 then
      var first := parts[0];
      assert first == first[..1] + first[1..];
      PriceInfo(Some(first[1..]), Some(first[..1]),
                if Contains(Lower(text), "night") then Some(true) else None, None, None)
    else NoPrice
  }

  /** The stripped text of a found sub-element, or what its lookup raised. */
  function SubText(scope: Item, sel: string): (r: Outcome<Option<string>>)
    ensures Probe(scope, sel).Found? ==> r == Ok(Some(Strip(Probe(scope, sel).elem.text)))
    ensures Probe(scope, sel).Missing? ==> r == Ok(None)
    ensures Probe(scope, sel).Stale? ==> r.Raise?
  {
    match FindRetry(scope, sel)
    case Raise(e) => Raise(e)
    case Ok(None) => Ok(None)
    case Ok(Some(el)) => Ok(Some(Strip(el.text)))
  }

  /** The body of the `try` block once the main price text is known.
      `text` is the stripped text (None without a price element); `scope` is
      the element whose sub-elements hold the total and the taxes. A lookup
      that raises ends the block, and the fields assigned so far are kept. */
  function PriceCore(text: Option<string>, scope: Item): (r: PriceInfo)
    ensures text.None? || text.value == "" ==> r == NoPrice
    ensures text.Some? && text.value != "" ==>
      var head := ParseTokens(text.value);
      && r.amount == head.amount && r.currency == head.currency && r.perNight == head.perNight
      && r.total == (if SubText(scope, TOTAL_SELECTOR).Ok? then SubText(scope, TOTAL_SELECTOR).value else None)
      && r.taxesFees == (if SubText(scope, TOTAL_SELECTOR).Ok? && SubText(scope, TAXES_SELECTOR).Ok?
                         then SubText(scope, TAXES_SELECTOR).value else None)
  {
    if text.None? || text.value == "" then NoPrice
    else
      var head := ParseTokens(text.value);
      match SubText(scope, TOTAL_SELECTOR)
      case Raise(_) => head
      case Ok(total) =>
        var withTotal := head.(total := total);
        match SubText(scope, TAXES_SELECTOR)
        case Raise(_) => withTotal
        case Ok(taxes) => withTotal.(taxesFees := taxes)
  }

  /** PriceExtractor.extract on the element found for the price (or None). */
  function Extract(priceElement: Option<Elem>): PriceInfo {
    match priceElement
    case None => PriceCore(None, Detached)
    case Some(e) => PriceCore(Some(Strip(e.text)), Live(e))
  }

  /** No price element, or one whose text is blank, leaves all five fields
      None, and what lies beneath the element is never consulted. */
  lemma ExtractEmpty(priceElement: Option<Elem>, other: Elem)
    requires priceElement.None? || AllSpace(priceElement.value.text)
    ensures Extract(priceElement) == NoPrice
    ensures priceElement.Some? ==>
      Extract(priceElement) == Extract(Some(priceElement.value.(one := other.one)))
  {
  }

  /** Currency and amount split the first token, whatever follows, and the
      per-night flag is set only with two or more tokens and "night" in the
      lowercased text; otherwise they stay None. */
  lemma ExtractTokens(e: Elem)
    ensures Extract(Some(e)).currency.Some? <==> |Split(Strip(e.text))| >= 2
    ensures Extract(Some(e)).amount.Some? <==> |Split(Strip(e.text))| >= 2
    ensures Extract(Some(e)).currency.Some? ==>
      && |Extract(Some(e)).currency.value| == 1
      && Extract(Some(e)).currency.value + Extract(Some(e)).amount.value == Split(Strip(e.text))[0]
    ensures Extract(Some(e)).perNight == Some(true) <==>
      |Split(Strip(e.text))| >= 2 && Contains(Lower(Strip(e.text)), "night")
    ensures Extract(Some(e)).perNight != Some(false)
  {
    var t := Strip(e.text);
    if t == "" {
      ExtractBlank(e);
    } else {
      ExtractParsed(e, t);
    }
    TokenFields(Extract(Some(e)), t);
  }

  lemma ExtractBlank(e: Elem)
    requires Strip(e.text) == ""
    ensures Extract(Some(e)) == NoPrice && Split(Strip(e.text)) == []
  {
    SplitAllSpace("");
  }

  /** The token fields of a record that is either NoPrice for an empty text
      or agrees with ParseTokens on a non-empty one. */
  lemma TokenFields(r: PriceInfo, t: string)
    requires t == "" ==> r == NoPrice && Split(t) == []
    requires t != "" ==>
      r.currency == ParseTokens(t).currency && r.amount == ParseTokens(t).amount
      && r.perNight == ParseTokens(t).perNight
    ensures r.currency.Some? <==> |Split(t)| >= 2
    ensures r.amount.Some? <==> |Split(t)| >= 2
    ensures r.currency.Some? ==> |r.currency.value| == 1 && r.currency.value + r.amount.value == Split(t)[0]
    ensures r.perNight == Some(true) <==> |Split(t)| >= 2 && Contains(Lower(t), "night")
    ensures r.perNight != Some(false)
  {
  }

  /** The total and the taxes come from their own sub-elements, whatever the
      number of tokens: found gives its stripped text, missing gives None, and
      a stale total also skips the taxes lookup. */
  lemma ExtractSubElements(e: Elem)
    requires !AllSpace(e.text)
    ensures Probe(Live(e), TOTAL_SELECTOR).Found? ==>
      Extract(Some(e)).total == Some(Strip(Probe(Live(e), TOTAL_SELECTOR).elem.text))
    ensures !Probe(Live(e), TOTAL_SELECTOR).Found? ==> Extract(Some(e)).total == None
    ensures !Probe(Live(e), TOTAL_SELECTOR).Stale? && Probe(Live(e), TAXES_SELECTOR).Found? ==>
      Extract(Some(e)).taxesFees == Some(Strip(Probe(Live(e), TAXES_SELECTOR).elem.text))
    ensures Probe(Live(e), TOTAL_SELECTOR).Stale? || !Probe(Live(e), TAXES_SELECTOR).Found? ==>
      Extract(Some(e)).taxesFees == None
  {
    var t := Strip(e.text);
    assert t != "";
    assert Extract(Some(e)) == PriceCore(Some(t), Live(e));
    CoreSubElements(t, Live(e));
  }

  /** ExtractSubElements for the `try` block on a non-empty text. */
  lemma CoreSubElements(t: string, scope: Item)
    requires t != ""
    ensures var r := PriceCore(Some(t), scope);
      && (Probe(scope, TOTAL_SELECTOR).Found? ==> r.total == Some(Strip(Probe(scope, TOTAL_SELECTOR).elem.text)))
      && (!Probe(scope, TOTAL_SELECTOR).Found? ==> r.total == None)
      && (!Probe(scope, TOTAL_SELECTOR).Stale? && Probe(scope, TAXES_SELECTOR).Found? ==>
            r.taxesFees == Some(Strip(Probe(scope, TAXES_SELECTOR).elem.text)))
      && (Probe(scope, TOTAL_SELECTOR).Stale? || !Probe(scope, TAXES_SELECTOR).Found? ==> r.taxesFees == None)
  {
    var total, taxes := SubText(scope, TOTAL_SELECTOR), SubText(scope, TAXES_SELECTOR);
    var r := PriceCore(Some(t), scope);
    assert r.total == (if total.Ok? then total.value else None);
    assert r.taxesFees == (if total.Ok? && taxes.Ok? then taxes.value else None);
  }

  /** "$" followed by digits and " per night", as in "$120 per night": the
      currency is "$", the amount the digits, and the per-night flag True. */
  lemma ParseExample(t: string, amount: string)
    requires IsDigits(amount) && t == "$" + amount + " per night"
    ensures ParseTokens(t).currency == Some("$")
    ensures ParseTokens(t).amount == Some(amount)
    ensures ParseTokens(t).perNight == Some(true)
  {
    var w := "$" + amount;
    ExampleTokens(t, amount);
    ExampleNight(t, amount);
    var r := ParseTokens(t);
    var c, a := r.currency.value, r.amount.value;
    assert c + a == w;
    assert c == (c + a)[..1] && a == (c + a)[1..];
  }

  lemma ExampleTokens(t: string, amount: string)
    requires IsDigits(amount) && t == "$" + amount + " per night"
    ensures Split(t) == ["$" + amount, "per", "night"]
  {
    var ts := ["$" + amount, "per", "night"];
    DollarWord(amount);
    assert ts[1..] == ["per", "night"];
    assert ts[1..][1..] == ["night"];
    assert JoinSpace(ts[1..]) == "per night";
    assert JoinSpace(ts) == t;
    SplitJoinSpace(ts);
  }

  lemma ExampleNight(t: string, amount: string)
    requires t == "$" + amount + " per night"
    ensures Contains(Lower(t), "night")
  {
    assert Lower(t)[|amount| + 6..|amount| + 11] == "night";
    assert OccursAt(Lower(t), "night", |amount| + 6);
  }

  lemma DollarWord(amount: string)
    requires IsDigits(amount)
    ensures NoSpace("$" + amount)
  {
    var w := "$" + amount;
    forall i | 0 <= i < |w| ensures !IsSpace(w[i]) {
      if i > 0 { assert w[i] == amount[i - 1]; }
    }
  }

  /** The same through an element whose text, once stripped, is such a price. */
  lemma ExtractExample(e: Elem, amount: string)
    requires IsDigits(amount) && Strip(e.text) == "$" + amount + " per night"
    ensures Extract(Some(e)).currency == Some("$")
    ensures Extract(Some(e)).amount == Some(amount)
    ensures Extract(Some(e)).perNight == Some(true)
  {
    ParseExample(Strip(e.text), amount);
    ExtractParsed(e, Strip(e.text));
  }

  lemma ExtractParsed(e: Elem, t: string)
    requires Strip(e.text) == t && t != ""
    ensures Extract(Some(e)).currency == ParseTokens(t).currency
    ensures Extract(Some(e)).amount == ParseTokens(t).amount
    ensures Extract(Some(e)).perNight == ParseTokens(t).perNight
  {
  }

  /** A single token such as "$120" leaves currency, amount and per-night None,
      although the text is not empty. */
  lemma ExtractOneToken(e: Elem, amount: string)
    requires IsDigits(amount) && Strip(e.text) == "$" + amount
    ensures Extract(Some(e)).currency == None
    ensures Extract(Some(e)).amount == None
    ensures Extract(Some(e)).perNight == None
  {
    var t := Strip(e.text);
    assert Split(t) == [t] by {
      DollarWord(amount);
      SplitLastWord(t);
    }
    ExtractParsed(e, t);
  }
}
