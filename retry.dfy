/** The retry helpers of scraper/src/utils/retry.py: a lookup attempt loop
    driven by exceptions, and the wait helpers that turn a timeout into a
    default value. */
module Retry {
  import opened Wrappers
  import opened Dom

  const DEFAULT_TIMEOUT: nat := 10
  const MAX_RETRIES: int := 3
  const RETRY_DELAY: nat := 2

  // --------------------------------------------------- find_element_with_retry

  /** What the attempt loop returns when attempts `attempt`, `attempt + 1`, ...
      still remain; `probe(k)` is what `find_element` meets on attempt k. */
  function RetryFrom(probe: nat -> Lookup, maxRetries: int, attempt: nat): Outcome<Option<Elem>>
    decreases if attempt < maxRetries then maxRetries - attempt else 0
  {
    if maxRetries <= attempt then Ok(None)
    else match probe(attempt)
      case Found(e) => Ok(Some(e))
      case Missing => Ok(None)
      case Stale =>
        if attempt == maxRetries - 1 then Raise(StaleElement)
        else RetryFrom(probe, maxRetries, attempt + 1)
  }

  /** How many lookups the attempt loop makes from attempt `attempt` on. */
  function RetryLookups(probe: nat -> Lookup, maxRetries: int, attempt: nat): nat
    decreases if attempt < maxRetries then maxRetries - attempt else 0
  {
    if maxRetries <= attempt then 0
    else if probe(attempt).Stale? && attempt < maxRetries - 1 then
      1 + RetryLookups(probe, maxRetries, attempt + 1)
    else 1
  }

  /** `n` sleeps of `d` seconds. */
  function Naps(d: nat, n: nat): (r: seq<nat>)
    ensures |r| == n && forall i | 0 <= i < n :: r[i] == d
  {
    seq(n, _ => d)
  }

  /** The attempt loop of find_element_with_retry with the sleep `delay`
      between attempts: RETRY_DELAY in scraper/src/utils/retry.py, 1 second in
      scraper/src/hotel_scraper.py. `lookups` counts `find_element` calls and
      `naps` logs the sleeps. */
  method FindElementWithRetry(probe: nat -> Lookup, maxRetries: int, delay: nat)
    returns (r: Outcome<Option<Elem>>, ghost lookups: nat, ghost naps: seq<nat>)
    ensures r == RetryFrom(probe, maxRetries, 0)
    ensures lookups == RetryLookups(probe, maxRetries, 0)
    ensures naps == Naps(delay, if lookups == 0 then 0 else lookups - 1)
  {
    var attempt: nat := 0;
    lookups, naps := 0, [];
    while attempt < maxRetries
      invariant RetryFrom(probe, maxRetries, 0) == RetryFrom(probe, maxRetries, attempt)
      invariant RetryLookups(probe, maxRetries, 0) == attempt + RetryLookups(probe, maxRetries, attempt)
      invariant lookups == attempt && (attempt == 0 || attempt < maxRetries)
      invariant naps == Naps(delay, attempt)
      decreases maxRetries - attempt
    {
      var l := probe(attempt);
      lookups := lookups + 1;
      match l
      case Found(e) =>
        return Ok(Some(e)), lookups, naps;
      case Missing =>
        return Ok(None), lookups, naps;
      case Stale =>
        if attempt == maxRetries - 1 {
          return Raise(StaleElement), lookups, naps;
        }
        naps := naps + [delay];
      attempt := attempt + 1;
    }
    r := Ok(None);
  }

  /** The loop returns the element that the first non-stale attempt finds. */
  lemma {:induction false} RetryFindsFirst(probe: nat -> Lookup, maxRetries: int, k: nat)
    requires k < maxRetries
    requires forall j | 0 <= j < k :: probe(j).Stale?
    requires probe(k).Found?
    ensures RetryFrom(probe, maxRetries, 0) == Ok(Some(probe(k).elem))
    ensures RetryLookups(probe, maxRetries, 0) == k + 1
  {
    RetrySkipsStale(probe, maxRetries, k);
  }

  /** A missing element ends the loop at once with None. */
  lemma {:induction false} RetryMissingStops(probe: nat -> Lookup, maxRetries: int, k: nat)
    requires k < maxRetries
    requires forall j | 0 <= j < k :: probe(j).Stale?
    requires probe(k).Missing?
    ensures RetryFrom(probe, maxRetries, 0) == Ok(None)
    ensures RetryLookups(probe, maxRetries, 0) == k + 1
  {
    RetrySkipsStale(probe, maxRetries, k);
  }

  /** Stale on every attempt, the last one re-raises, after `maxRetries` lookups. */
  lemma {:induction false} RetryAllStale(probe: nat -> Lookup, maxRetries: int)
    requires 1 <= maxRetries
    requires forall j | 0 <= j < maxRetries :: probe(j).Stale?
    ensures RetryFrom(probe, maxRetries, 0) == Raise(StaleElement)
    ensures RetryLookups(probe, maxRetries, 0) == maxRetries
  {
    RetrySkipsStale(probe, maxRetries, maxRetries - 1);
  }

  /** Stale attempts before attempt `k` only defer to attempt `k`. */
  lemma {:induction false} RetrySkipsStale(probe: nat -> Lookup, maxRetries: int, k: nat)
    requires k < maxRetries
    requires forall j | 0 <= j < k :: probe(j).Stale?
    ensures RetryFrom(probe, maxRetries, 0) == RetryFrom(probe, maxRetries, k)
    ensures RetryLookups(probe, maxRetries, 0) == k + RetryLookups(probe, maxRetries, k)
  {
    if k > 0 {
      RetrySkipsStale(probe, maxRetries, k - 1);
    }
  }

  /** Never more than `maxRetries` lookups, and none at all when it is not positive. */
  lemma {:induction false} RetryBounded(probe: nat -> Lookup, maxRetries: int, attempt: nat)
    ensures RetryLookups(probe, maxRetries, attempt) <= if attempt < maxRetries then maxRetries - attempt else 0
    ensures maxRetries <= attempt ==> RetryFrom(probe, maxRetries, attempt) == Ok(None)
    decreases if attempt < maxRetries then maxRetries - attempt else 0
  {
    if attempt < maxRetries && probe(attempt).Stale? && attempt < maxRetries - 1 {
      RetryBounded(probe, maxRetries, attempt + 1);
    }
  }

  /** find_element_with_retry beneath an element whose lookup result does not
      change between attempts: found gives the element, missing gives None,
      and stale raises once all MAX_RETRIES attempts met a stale element
      (FindRetryIsRetry). */
  function FindRetry(it: Item, sel: string): Outcome<Option<Elem>> {
    match Probe(it, sel)
    case Found(e) => Ok(Some(e))
    case Missing => Ok(None)
    case Stale => Raise(StaleElement)
  }

  /** The attempt loop on a lookup that does not change between attempts
      gives FindRetry. */
  lemma FindRetryIsRetry(it: Item, sel: string)
    ensures RetryFrom(_ => Probe(it, sel), MAX_RETRIES, 0) == FindRetry(it, sel)
  {
    var probe: nat -> Lookup := _ => Probe(it, sel);
    if Probe(it, sel).Stale? {
      RetryAllStale(probe, MAX_RETRIES);
    } else {
      RetrySkipsStale(probe, MAX_RETRIES, 0);
    }
  }

  /** find_element_with_retry for the extractors, as a method call. */
  method FindWithRetry(it: Item, sel: string) returns (r: Outcome<Option<Elem>>)
    ensures r == FindRetry(it, sel)
    ensures r.Ok? && r.value.Some? <==> Probe(it, sel).Found?
    ensures r == Ok(None) <==> Probe(it, sel).Missing?
  {
    ghost var lookups, naps;
    r, lookups, naps := FindElementWithRetry(_ => Probe(it, sel), MAX_RETRIES, RETRY_DELAY);
    FindRetryIsRetry(it, sel);
  }

  // ------------------------------------------------------------- wait helpers

  /** wait_for_element: the element once present; a timeout (nothing ever
      matched) gives None; a stale lookup is not a timeout and propagates. */
  function WaitForElement(parent: Item, sel: string): (r: Outcome<Option<Elem>>)
    ensures Probe(parent, sel).Found? ==> r == Ok(Some(Probe(parent, sel).elem))
    ensures Probe(parent, sel).Missing? ==> r == Ok(None)
    ensures Probe(parent, sel).Stale? ==> r == Raise(StaleElement)
  {
    match Probe(parent, sel)
    case Found(e) => Ok(Some(e))
    case Missing => Ok(None)
    case Stale => Raise(StaleElement)
  }

  /** wait_for_elements: the non-empty list once present; a timeout gives []. */
  function WaitForElements(parent: Item, sel: string): (r: Outcome<seq<Item>>)
    ensures r.Raise? <==> parent.Detached?
    ensures parent.Live? && sel !in parent.elem.many ==> r == Ok([])
    ensures r.Ok? ==> r == FindElements(parent, sel)
  {
    FindElements(parent, sel)
  }

  /** wait_for_page_load: true once `document.readyState` reads "complete"
      within the timeout; `observed` are the values read while waiting. A
      timeout gives False, never an exception. */
  function WaitForPageLoad(observed: seq<string>): (r: bool)
    ensures r <==> exists i | 0 <= i < |observed| :: observed[i] == "complete"
    ensures observed == [] ==> !r
  {
    "complete" in observed
  }

  /** The wait_for_element of scraper/src/hotel_scraper.py catches every
      exception, so a stale lookup also gives None. */
  function WaitForElementQuiet(parent: Item, sel: string): (r: Option<Elem>)
    ensures r.Some? <==> Probe(parent, sel).Found?
    ensures r.Some? ==> WaitForElement(parent, sel) == Ok(r)
  {
    match WaitForElement(parent, sel)
    case Ok(o) => o
    case Raise(_) => None
  }
}
