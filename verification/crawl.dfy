/** The crawl over the building directory (client.py, `get_all_buildings_urls`,
    `get_initial_buildings_soup`, `get_soup`, `get_apartments`). The network is
    a parameter: what the site answers to each request. */
module Crawl {
  import opened Wrappers
  import opened Errors
  import opened Text
  import opened Filter
  import opened DirectoryUrls
  import opened Document

  /** The outcome of one HTTP GET: a status and the parsed body, or an
      exception raised by the HTTP library before any answer arrived. */
  datatype Response = Response(status: int, page: DirectoryPage) | TransportFailure

  /** The site as the client sees it. `prime` answers the warm-up request sent
      (and discarded) before the first directory page; `get` answers every
      other request. */
  datatype Network = Network(prime: string -> Response, get: string -> Response)

  /** `requests.get(url)` followed by `raise_for_status()`: statuses 400 to
      599 raise, every other status yields the parsed body. */
  function Fetch(get: string -> Response, url: string): (r: Result<DirectoryPage, Error>)
    ensures r.Success? <==> get(url).Response? && !(400 <= get(url).status < 600)
    ensures r.Success? ==> r.value == get(url).page
    ensures get(url).TransportFailure? ==> r == Failure(ConnectionFailed(url))
    ensures get(url).Response? && 400 <= get(url).status < 600 ==> r == Failure(HttpStatus(url, get(url).status))
  {
    match get(url)
    case TransportFailure => Failure(ConnectionFailed(url))
    case Response(status, page) =>
      if 400 <= status < 600 then Failure(HttpStatus(url, status)) else Success(page)
  }

  /** `get_initial_buildings_soup`: the first directory page is requested
      twice; the first answer is dropped unchecked, so only a transport
      failure of the warm-up matters. */
  function InitialBuildingsPage(f: ApartmentFilter, net: Network): (r: Result<DirectoryPage, Error>)
    ensures net.prime(FirstBuildingsPageUrl(f)).Response? ==> r == Fetch(net.get, FirstBuildingsPageUrl(f))
    ensures net.prime(FirstBuildingsPageUrl(f)).TransportFailure? ==>
              r == Failure(ConnectionFailed(FirstBuildingsPageUrl(f)))
  {
    var url := FirstBuildingsPageUrl(f);
    if net.prime(url).TransportFailure? then Failure(ConnectionFailed(url))
    else Fetch(net.get, url)
  }

  /** The warm-up answer is discarded: two networks that both deliver it and
      answer the real request alike give the same first page, whatever status
      the warm-up carried. */
  lemma WarmupAnswerIgnored(f: ApartmentFilter, net: Network, other: Network)
    requires net.prime(FirstBuildingsPageUrl(f)).Response? && other.prime(FirstBuildingsPageUrl(f)).Response?
    requires net.get(FirstBuildingsPageUrl(f)) == other.get(FirstBuildingsPageUrl(f))
    ensures InitialBuildingsPage(f, net) == InitialBuildingsPage(f, other)
  {
  }

  /** The integer shown by the stripped text of the last page indicator;
      the earlier indicators are not read. */
  function PageCount(indicators: seq<string>): (r: Result<int, Error>)
    requires |indicators| > 0
    ensures r.Success? <==> ParseInt(Strip(indicators[|indicators| - 1])).Some?
    ensures r.Success? ==> ParseInt(Strip(indicators[|indicators| - 1])) == Some(r.value)
    ensures r.Failure? ==> r.error == BadPageCount(Strip(indicators[|indicators| - 1]))
  {
    var text := Strip(indicators[|indicators| - 1]);
    match ParseInt(text)
    case Some(n) => Success(n)
    case None => Failure(BadPageCount(text))
  }

  /** The number of the last directory page: 1 when the first page has no
      page indicators, otherwise the number its last indicator shows. */
  function LastPageNumber(first: DirectoryPage): Result<int, Error> {
    if |first.pageIndicators| == 0 then Success(1) else PageCount(first.pageIndicators)
  }

  /** The building URLs of directory page `n` (`get_soup` then `get_building_urls_in_page`). */
  function PageUrls(f: ApartmentFilter, get: string -> Response, n: int): Result<seq<string>, Error> {
    var page :- Fetch(get, BuildingsPageUrl(f, n));
    BuildingUrlsInPage(page)
  }

  /** "Fetch directory page `n` and extract its building URLs", as a function of `n`. */
  function PageFetcher(f: ApartmentFilter, get: string -> Response): int -> Result<seq<string>, Error> {
    n => PageUrls(f, get, n)
  }

  /** The building URLs of pages 2 to `last`, each obtained by `page`, in
      increasing page order; the first page that fails aborts with its error. */
  function CollectPages(page: int -> Result<seq<string>, Error>, last: int): Result<seq<string>, Error>
    decreases if last < 2 then 0 else last
  {
    if last < 2 then Success([])
    else
      var before :- CollectPages(page, last - 1);
      var urls :- page(last);
      Success(before + urls)
  }

  /** What `get_all_buildings_urls` collects once it holds the first page:
      that page's building URLs, then, when it has page indicators, those of
      pages 2 to the last, in page order. */
  function UrlsFromFirstPage(f: ApartmentFilter, get: string -> Response, first: DirectoryPage): Result<seq<string>, Error> {
    var urls :- BuildingUrlsInPage(first);
    if |first.pageIndicators| == 0 then Success(urls)
    else
      var numPages :- PageCount(first.pageIndicators);
      var rest :- CollectPages(PageFetcher(f, get), numPages);
      Success(urls + rest)
  }

  /** `get_all_buildings_urls`: the first page, fetched after the warm-up,
      then everything collected from it. */
  function AllBuildingsUrls(f: ApartmentFilter, net: Network): Result<seq<string>, Error> {
    var first :- InitialBuildingsPage(f, net);
    UrlsFromFirstPage(f, net.get, first)
  }

  /** `get_apartments`: the building URLs, unfiltered. */
  function GetApartments(c: Client, net: Network): (r: Result<seq<string>, Error>)
    ensures r == AllBuildingsUrls(c.filter, net)
  {
    AllBuildingsUrls(c.filter, net)
  }

  /** The crawl cannot go past the first page: one of its items has no href,
      or its page count is unreadable. */
  predicate FirstPageUnusable(first: DirectoryPage) {
    BuildingUrlsInPage(first).Failure? || LastPageNumber(first).Failure?
  }

  /** The crawl stops before requesting any later page: the first page cannot
      be fetched, or it is unusable. */
  predicate FirstPageFails(f: ApartmentFilter, net: Network) {
    var first := InitialBuildingsPage(f, net);
    first.Failure? || FirstPageUnusable(first.value)
  }

  /** The URL of the `k`-th request of a crawl: the first directory page for
      the warm-up and the real request, then page `k` for `k >= 2`. */
  function RequestedUrl(f: ApartmentFilter, k: nat): string {
    if k < 2 then FirstBuildingsPageUrl(f) else BuildingsPageUrl(f, k)
  }

  /** The loop of `get_all_buildings_urls` over pages 2 to `numPages`;
      `requests` records the URL of every page requested, in order. */
  method CrawlLaterPages(f: ApartmentFilter, get: string -> Response, numPages: int)
    returns (r: Result<seq<string>, Error>, requests: seq<string>)
    ensures r == CollectPages(PageFetcher(f, get), numPages)
    ensures forall k :: 0 <= k < |requests| ==> requests[k] == BuildingsPageUrl(f, k + 2)
    ensures r.Success? ==> |requests| == if numPages < 2 then 0 else numPages - 1
    ensures r.Failure? ==>
              && 1 <= |requests|
              && PageFetcher(f, get)(|requests| + 1) == Failure(r.error)
              && forall n :: 2 <= n <= |requests| ==> PageFetcher(f, get)(n).Success?
  {
    var result := [];
    requests := [];
    var i := 2;
    while i <= numPages
      invariant 2 <= i <= (if numPages < 2 then 2 else numPages + 1)
      invariant CollectPages(PageFetcher(f, get), i - 1) == Success(result)
      invariant |requests| == i - 2
      invariant forall k :: 0 <= k < |requests| ==> requests[k] == BuildingsPageUrl(f, k + 2)
      decreases numPages - i
    {
      var pageUrl := BuildingsPageUrl(f, i);
      ghost var before := requests;
      requests := requests + [pageUrl];
      forall k | 0 <= k < |requests|
        ensures requests[k] == BuildingsPageUrl(f, k + 2)
      {
        if k < |before| {
          assert requests[k] == before[k];
        }
      }
      var pageUrls := PageUrls(f, get, i);
      assert PageFetcher(f, get)(i) == pageUrls;
      if pageUrls.Failure? {
        CollectPagesFailureStops(PageFetcher(f, get), i, numPages);
        return Failure(pageUrls.error), requests;
      }
      assert CollectPages(PageFetcher(f, get), i) == Success(result + pageUrls.value);
      result := result + pageUrls.value;
      i := i + 1;
    }
    if numPages < 2 {
      assert CollectPages(PageFetcher(f, get), numPages) == Success([]);
    } else {
      assert i - 1 == numPages;
    }
    return Success(result), requests;
  }

  /** The part of `get_all_buildings_urls` after the first page is fetched:
      `later` records the URL of every later page requested, in order. */
  method CrawlFromFirstPage(f: ApartmentFilter, get: string -> Response, first: DirectoryPage)
    returns (r: Result<seq<string>, Error>, later: seq<string>)
    ensures r == UrlsFromFirstPage(f, get, first)
    ensures forall k :: 0 <= k < |later| ==> later[k] == BuildingsPageUrl(f, k + 2)
    ensures r.Success? ==>
              && LastPageNumber(first).Success?
              && |later| == if LastPageNumber(first).value < 2 then 0 else LastPageNumber(first).value - 1
    ensures r.Failure? ==> (|later| == 0 <==> FirstPageUnusable(first))
    ensures r.Failure? && |later| > 0 ==>
              && PageFetcher(f, get)(|later| + 1) == Failure(r.error)
              && forall n :: 2 <= n <= |later| ==> PageFetcher(f, get)(n).Success?
  {
    var firstUrls := BuildingUrlsInPage(first);
    if firstUrls.Failure? {
      return Failure(firstUrls.error), [];
    }
    if |first.pageIndicators| == 0 {
      return Success(firstUrls.value), [];
    }
    var count := PageCount(first.pageIndicators);
    if count.Failure? {
      return Failure(count.error), [];
    }
    var rest;
    rest, later := CrawlLaterPages(f, get, count.value);
    if rest.Failure? {
      return Failure(rest.error), later;
    }
    return Success(firstUrls.value + rest.value), later;
  }

  /** `get_all_buildings_urls` as the source runs it, extending the result
      page by page; `requests` records the URL of every HTTP request sent, in
      order, the warm-up included. */
  method GetAllBuildingsUrls(c: Client, net: Network) returns (r: Result<seq<string>, Error>, requests: seq<string>)
    ensures r == AllBuildingsUrls(c.filter, net)
    ensures 1 <= |requests|
    ensures forall k :: 0 <= k < |requests| ==> requests[k] == RequestedUrl(c.filter, k)
    ensures net.prime(FirstBuildingsPageUrl(c.filter)).TransportFailure? <==> |requests| == 1
    ensures r.Success? ==>
              InitialBuildingsPage(c.filter, net).Success?
              && LastPageNumber(InitialBuildingsPage(c.filter, net).value).Success?
              && var last := LastPageNumber(InitialBuildingsPage(c.filter, net).value).value;
                 |requests| == if last < 2 then 2 else last + 1
    ensures r.Failure? ==> (|requests| <= 2 <==> FirstPageFails(c.filter, net))
    ensures r.Failure? && |requests| > 2 ==>
              && PageFetcher(c.filter, net.get)(|requests| - 1) == Failure(r.error)
              && forall n :: 2 <= n < |requests| - 1 ==> PageFetcher(c.filter, net.get)(n).Success?
  {
    var f := c.filter;
    var url := FirstBuildingsPageUrl(f);
    requests := [url];
    if net.prime(url).TransportFailure? {
      return Failure(ConnectionFailed(url)), requests;
    }
    requests := requests + [url];
    var soup := Fetch(net.get, url);
    if soup.Failure? {
      return Failure(soup.error), requests;
    }
    var later;
    r, later := CrawlFromFirstPage(f, net.get, soup.value);
    ghost var head := requests;
    requests := requests + later;
    forall k | 0 <= k < |requests|
      ensures requests[k] == RequestedUrl(f, k)
    {
      if k >= 2 {
        assert requests[k] == later[k - 2];
      } else {
        assert requests[k] == head[k];
      }
    }
  }

  /** Once page `i` fails, every collection that reaches it fails with its error. */
  lemma {:induction false} CollectPagesFailureStops(page: int -> Result<seq<string>, Error>, i: int, last: int)
    requires 2 <= i <= last
    requires CollectPages(page, i - 1).Success?
    requires page(i).Failure?
    ensures CollectPages(page, last) == Failure(page(i).error)
    ensures forall n :: 2 <= n < i ==> page(n).Success?
    decreases last
  {
    CollectPagesSucceedTogether(page, i - 1);
    if last > i {
      CollectPagesFailureStops(page, i, last - 1);
    }
  }

  /** The concatenation of `ss`, in order. */
  function Flatten(ss: seq<seq<string>>): seq<string> {
    if |ss| == 0 then [] else Flatten(ss[..|ss| - 1]) + ss[|ss| - 1]
  }

  function SumLengths(ss: seq<seq<string>>): nat {
    if |ss| == 0 then 0 else SumLengths(ss[..|ss| - 1]) + |ss[|ss| - 1]|
  }

  /** A concatenation is as long as its parts together; nothing is dropped or merged. */
  lemma {:induction false} FlattenLength(ss: seq<seq<string>>)
    ensures |Flatten(ss)| == SumLengths(ss)
  {
    if |ss| > 0 {
      FlattenLength(ss[..|ss| - 1]);
    }
  }

  /** The URL lists of pages 2 to `last`, one per page, in page order. */
  function PageLists(page: int -> Result<seq<string>, Error>, last: int): (ss: seq<seq<string>>)
    ensures |ss| == if last < 2 then 0 else last - 1
  {
    seq(if last < 2 then 0 else last - 1, k => page(k + 2).GetOr([]))
  }

  /** Pages 2 to `last` are collected exactly when every one of them succeeds. */
  lemma {:induction false} CollectPagesSucceedTogether(page: int -> Result<seq<string>, Error>, last: int)
    ensures CollectPages(page, last).Success? <==> forall n :: 2 <= n <= last ==> page(n).Success?
    decreases if last < 2 then 0 else last
  {
    if last >= 2 {
      CollectPagesSucceedTogether(page, last - 1);
    }
  }

  /** On success, the collected URLs are the per-page lists concatenated in
      increasing page order, duplicates kept. */
  lemma {:induction false} CollectPagesInPageOrder(page: int -> Result<seq<string>, Error>, last: int)
    requires CollectPages(page, last).Success?
    ensures CollectPages(page, last).value == Flatten(PageLists(page, last))
    decreases if last < 2 then 0 else last
  {
    if last >= 2 {
      CollectPagesInPageOrder(page, last - 1);
      var ss := PageLists(page, last);
      assert ss[..|ss| - 1] == PageLists(page, last - 1);
    }
  }

  /** On failure, the error is that of the lowest-numbered failing page. */
  lemma {:induction false} CollectPagesFirstError(page: int -> Result<seq<string>, Error>, last: int)
    requires CollectPages(page, last).Failure?
    ensures exists n :: 2 <= n <= last && page(n).Failure? && CollectPages(page, last).error == page(n).error
                        && forall m :: 2 <= m < n ==> page(m).Success?
    decreases if last < 2 then 0 else last
  {
    if CollectPages(page, last - 1).Failure? {
      CollectPagesFirstError(page, last - 1);
    } else {
      CollectPagesSucceedTogether(page, last - 1);
    }
  }

  /** The crawl's result, when it succeeds: the first page's URLs followed by
      those of pages 2 to the last in page order, as long as all of them
      together. With no page indicators, or a last page of at most 1, it is
      the first page's URLs alone. */
  lemma AllBuildingsUrlsOrder(f: ApartmentFilter, net: Network)
    requires AllBuildingsUrls(f, net).Success?
    ensures InitialBuildingsPage(f, net).Success?
    ensures var first := InitialBuildingsPage(f, net).value;
            && BuildingUrlsInPage(first).Success?
            && LastPageNumber(first).Success?
            && var pages := PageLists(PageFetcher(f, net.get), LastPageNumber(first).value);
               && AllBuildingsUrls(f, net).value == BuildingUrlsInPage(first).value + Flatten(pages)
               && |AllBuildingsUrls(f, net).value| == |BuildingUrlsInPage(first).value| + SumLengths(pages)
               && (LastPageNumber(first).value <= 1 ==> AllBuildingsUrls(f, net).value == BuildingUrlsInPage(first).value)
  {
    var first := InitialBuildingsPage(f, net).value;
    var last := LastPageNumber(first).value;
    var pages := PageLists(PageFetcher(f, net.get), last);
    CollectPagesInPageOrder(PageFetcher(f, net.get), last);
    FlattenLength(pages);
    if |first.pageIndicators| == 0 {
      assert pages == [];
    }
  }

  /** When the first page has no page indicators, nothing but the first page
      matters: networks that agree on the two requests for it give the same result. */
  lemma NoIndicatorsFetchesNothingMore(f: ApartmentFilter, net: Network, other: Network)
    requires net.prime(FirstBuildingsPageUrl(f)) == other.prime(FirstBuildingsPageUrl(f))
    requires net.get(FirstBuildingsPageUrl(f)) == other.get(FirstBuildingsPageUrl(f))
    requires InitialBuildingsPage(f, net).Success? ==> |InitialBuildingsPage(f, net).value.pageIndicators| == 0
    ensures AllBuildingsUrls(f, net) == AllBuildingsUrls(f, other)
    ensures InitialBuildingsPage(f, net).Success? && BuildingUrlsInPage(InitialBuildingsPage(f, net).value).Success? ==>
              AllBuildingsUrls(f, net) == BuildingUrlsInPage(InitialBuildingsPage(f, net).value)
  {
  }

  /** The page count read from an indicator that shows `n`, however it is
      padded with whitespace, is `n`. */
  lemma PageCountReadsIndicator(indicators: seq<string>, pre: string, n: int, post: string)
    requires AllSpace(pre) && AllSpace(post)
    ensures PageCount(indicators + [pre + IntToString(n) + post]) == Success(n)
  {
    IntToStringUnpadded(n);
    StripPadded(pre, IntToString(n), post);
    ParseIntToString(n);
  }
}
