/** The page as the scraper sees it through Selenium, as a value: an element's
    text, its attributes, and what each CSS selector lookup beneath it yields.
    Selectors are opaque keys; no CSS matching is modelled. */
module Dom {
  import opened Wrappers
  import opened PyStr
  import opened Seqs

  /** One element. `one[sel]` is what `find_element(sel)` meets (a selector
      that is not a key finds nothing); `many[sel]` is the list
      `find_elements(sel)` returns (a selector that is not a key gives []). */
  datatype Elem = Elem(
    text: string,
    attrs: map<string, string>,
    one: map<string, Lookup>,
    many: map<string, seq<Item>>)

  /** The outcome of one `find_element` call. */
  datatype Lookup = Found(elem: Elem) | Missing | Stale

  /** An entry of a `find_elements` list: still attached, or detached from
      the document, so that every use of it raises a stale-element error. */
  datatype Item = Live(elem: Elem) | Detached

  /** The exceptions the extractors distinguish. */
  datatype Exc = NoSuchElement | StaleElement | ValueError

  /** A Python call that returns a value or raises. */
  datatype Outcome<+T> = Ok(value: T) | Raise(exc: Exc)

  /** A document with nothing in it: what a URL the site does not serve shows. */
  const EmptyPage := Elem("", map[], map[], map[])

  /** One `find_element` attempt beneath an item. */
  function Probe(it: Item, sel: string): (l: Lookup)
    ensures it.Detached? ==> l == Stale
    ensures it.Live? && sel !in it.elem.one ==> l == Missing
  {
    match it
    case Detached => Stale
    case Live(e) => if sel in e.one then e.one[sel] else Missing
  }

  /** `find_element` without retry: a missing element raises NoSuchElement. */
  function FindElement(it: Item, sel: string): (r: Outcome<Elem>)
    ensures r.Ok? <==> Probe(it, sel).Found?
    ensures r.Ok? ==> r.value == Probe(it, sel).elem
    ensures r == Raise(NoSuchElement) <==> Probe(it, sel) == Missing
  {
    match Probe(it, sel)
    case Found(e) => Ok(e)
    case Missing => Raise(NoSuchElement)
    case Stale => Raise(StaleElement)
  }

  /** `find_elements`: the list, [] when nothing matches, stale on a detached item. */
  function FindElements(it: Item, sel: string): (r: Outcome<seq<Item>>)
    ensures r.Raise? <==> it.Detached?
    ensures it.Live? && sel !in it.elem.many ==> r == Ok([])
  {
    match it
    case Detached => Raise(StaleElement)
    case Live(e) => Ok(if sel in e.many then e.many[sel] else [])
  }

  /** The list `find_elements` gives beneath an item, [] when it raises. */
  function Children(it: Item, sel: string): (r: seq<Item>)
    ensures it.Live? ==> FindElements(it, sel) == Ok(r)
  {
    match FindElements(it, sel)
    case Ok(items) => items
    case Raise(_) => []
  }

  /** `.text` of an item. */
  function Text(it: Item): (r: Outcome<string>)
    ensures r.Raise? <==> it.Detached?
  {
    match it
    case Detached => Raise(StaleElement)
    case Live(e) => Ok(e.text)
  }

  /** `get_attribute(name)`: None when the element has no such attribute. */
  function Attr(e: Elem, name: string): (r: Option<string>)
    ensures r.Some? <==> name in e.attrs
  {
    if name in e.attrs then Some(e.attrs[name]) else None
  }

  /** `.text.strip()` of an item that is still attached. */
  function StrippedText(it: Item): (r: Option<string>)
    ensures r.Some? <==> it.Live?
  {
    match it
    case Detached => None
    case Live(e) => Some(Strip(e.text))
  }

  /** The stripped texts of the attached items of a list, in order: what a
      loop that skips stale elements gets to see. */
  function LiveTexts(items: seq<Item>): seq<string> {
    FilterMap(items, StrippedText)
  }

  /** One more attached item adds its stripped text. */
  lemma LiveTextsSnoc(items: seq<Item>, e: Elem)
    ensures LiveTexts(items + [Live(e)]) == LiveTexts(items) + [Strip(e.text)]
  {
    FilterMapSnoc(items, Live(e), StrippedText);
  }

  /** One more stale item adds nothing. */
  lemma LiveTextsSnocStale(items: seq<Item>)
    ensures LiveTexts(items + [Detached]) == LiveTexts(items)
  {
    FilterMapSnoc(items, Detached, StrippedText);
    assert LiveTexts(items) + [] == LiveTexts(items);
  }
}
