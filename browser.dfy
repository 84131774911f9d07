/** The browser session both scrapers drive, as a scripted object: which
    page each URL serves, which navigations and refreshes raise, and the
    page heights successive reads observe. The session counts what it was
    asked to do and keeps a ghost log of the backoff sleeps. */
module Browser {
  import opened Dom

  class Session {
    /** The page each URL serves; any other URL shows an empty document. */
    const site: map<string, Elem>
    /** Whether the n-th `driver.get` raises (navigation, readiness wait and
        scroll scripts of one load attempt fail together). */
    const getFails: nat -> bool
    /** Whether the n-th `driver.refresh` raises. */
    const refreshFails: nat -> bool
    /** `document.body.scrollHeight` at the n-th read. */
    const heights: nat -> nat

    /** The document currently shown. */
    var page: Elem
    var gets: nat
    var refreshes: nat
    var heightReads: nat
    var scrolls: nat
    /** The backoff `time.sleep` calls, in seconds, in order. */
    ghost var naps: seq<nat>

    constructor (site: map<string, Elem>, getFails: nat -> bool, refreshFails: nat -> bool,
                 heights: nat -> nat)
      ensures this.site == site && this.getFails == getFails
      ensures this.refreshFails == refreshFails && this.heights == heights
      ensures page == EmptyPage && gets == 0 && refreshes == 0 && heightReads == 0
      ensures scrolls == 0 && naps == []
    {
      this.site := site;
      this.getFails := getFails;
      this.refreshFails := refreshFails;
      this.heights := heights;
      page := EmptyPage;
      gets, refreshes, heightReads, scrolls := 0, 0, 0, 0;
      naps := [];
    }

    /** What `url` shows once loaded. */
    function PageAt(url: string): (p: Elem)
      ensures url !in site ==> p == EmptyPage
    {
      if url in site then site[url] else EmptyPage
    }

    /** `driver.get(url)`: false when it raises, and the page is unchanged. */
    method Get(url: string) returns (ok: bool)
      modifies this
      ensures gets == old(gets) + 1 && ok == !getFails(old(gets))
      ensures page == if ok then PageAt(url) else old(page)
      ensures refreshes == old(refreshes) && heightReads == old(heightReads)
      ensures scrolls == old(scrolls) && naps == old(naps)
    {
      ok := !getFails(gets);
      if ok {
        page := PageAt(url);
      }
      gets := gets + 1;
    }

    /** `driver.refresh()`: false when it raises. */
    method Refresh() returns (ok: bool)
      modifies this
      ensures refreshes == old(refreshes) + 1 && ok == !refreshFails(old(refreshes))
      ensures page == old(page) && gets == old(gets) && heightReads == old(heightReads)
      ensures scrolls == old(scrolls) && naps == old(naps)
    {
      ok := !refreshFails(refreshes);
      refreshes := refreshes + 1;
    }

    /** `execute_script("return document.body.scrollHeight")`. */
    method ReadHeight() returns (h: nat)
      modifies this
      ensures h == heights(old(heightReads)) && heightReads == old(heightReads) + 1
      ensures page == old(page) && gets == old(gets) && refreshes == old(refreshes)
      ensures scrolls == old(scrolls) && naps == old(naps)
    {
      h := heights(heightReads);
      heightReads := heightReads + 1;
    }

    /** `execute_script("window.scrollTo(0, document.body.scrollHeight);")`. */
    method ScrollToBottom()
      modifies this
      ensures scrolls == old(scrolls) + 1
      ensures page == old(page) && gets == old(gets) && refreshes == old(refreshes)
      ensures heightReads == old(heightReads) && naps == old(naps)
    {
      scrolls := scrolls + 1;
    }

    /** `time.sleep(seconds)` for a backoff. */
    method Sleep(seconds: nat)
      modifies this
      ensures naps == old(naps) + [seconds]
      ensures page == old(page) && gets == old(gets) && refreshes == old(refreshes)
      ensures heightReads == old(heightReads) && scrolls == old(scrolls)
    {
      naps := naps + [seconds];
    }
  }
}
