/** A building-directory page, reduced to what the client reads from it, and
    the per-page extraction `get_building_urls_in_page` (client.py). The HTML
    parser's selectors are abstracted: the page already holds, in document
    order, the `li` elements whose class attribute is `item building` and the
    texts of the `span` elements whose class attribute is `page`. */
module Document {
  import opened Wrappers
  import opened Errors
  import opened DirectoryUrls

  /** An `<a>` element; `href` is absent when the attribute is missing. */
  datatype Anchor = Anchor(href: Option<string>)

  /** An `h3.details-title` element with the `<a>` elements inside it, in document order. */
  datatype TitleHeading = TitleHeading(anchors: seq<Anchor>)

  /** An `li` element whose class attribute is `item building`, with its
      title headings in document order. */
  datatype BuildingItem = BuildingItem(titles: seq<TitleHeading>)

  /** One directory page: its building items and the text of each page indicator. */
  datatype DirectoryPage = DirectoryPage(buildings: seq<BuildingItem>, pageIndicators: seq<string>)

  /** The href of the first anchor of the first title heading of the item at
      position `index`, or the exception reading it raises. */
  function BuildingHref(item: BuildingItem, index: nat): (r: Result<string, Error>)
    ensures r.Success? <==>
              |item.titles| > 0 && |item.titles[0].anchors| > 0 && item.titles[0].anchors[0].href.Some?
    ensures r.Success? ==> r.value == item.titles[0].anchors[0].href.value
    ensures |item.titles| == 0 ==> r == Failure(MissingTitle(index))
    ensures |item.titles| > 0 && |item.titles[0].anchors| == 0 ==> r == Failure(MissingAnchor(index))
    ensures |item.titles| > 0 && |item.titles[0].anchors| > 0 && item.titles[0].anchors[0].href.None? ==>
              r == Failure(MissingHref(index))
  {
    if |item.titles| == 0 then Failure(MissingTitle(index))
    else if |item.titles[0].anchors| == 0 then Failure(MissingAnchor(index))
    else match item.titles[0].anchors[0].href
      case None => Failure(MissingHref(index))
      case Some(h) => Success(h)
  }

  /** Item `k` is where extraction of `items[i..]` stops: every item before it
      yields an href and it does not. */
  predicate FirstBadItem(items: seq<BuildingItem>, i: nat, k: nat)
    requires i <= k < |items|
  {
    && BuildingHref(items[k], k).Failure?
    && forall j :: i <= j < k ==> BuildingHref(items[j], j).Success?
  }

  /** The absolute URLs of `items[i..]`, evaluated left to right like the list
      comprehension: the first item without an href aborts with its error. */
  function UrlsFrom(items: seq<BuildingItem>, i: nat): (r: Result<seq<string>, Error>)
    requires i <= |items|
    ensures r.Success? <==> forall k :: i <= k < |items| ==> BuildingHref(items[k], k).Success?
    ensures r.Success? ==>
              && |r.value| == |items| - i
              && forall k :: i <= k < |items| ==> r.value[k - i] == BaseUrl + BuildingHref(items[k], k).value
    decreases |items| - i
  {
    if i == |items| then Success([])
    else
      var href :- BuildingHref(items[i], i);
      var rest :- UrlsFrom(items, i + 1);
      Success([BaseUrl + href] + rest)
  }

  /** Extraction of `items[i..]` fails with the error of its first item
      without an href. */
  lemma {:induction false} UrlsFromFirstError(items: seq<BuildingItem>, i: nat)
    requires i <= |items|
    requires UrlsFrom(items, i).Failure?
    ensures exists k :: i <= k < |items| && FirstBadItem(items, i, k)
                        && UrlsFrom(items, i).error == BuildingHref(items[k], k).error
    decreases |items| - i
  {
    if BuildingHref(items[i], i).Failure? {
      assert FirstBadItem(items, i, i);
    } else {
      UrlsFromFirstError(items, i + 1);
      var k :| i + 1 <= k < |items| && FirstBadItem(items, i + 1, k)
               && UrlsFrom(items, i + 1).error == BuildingHref(items[k], k).error;
      assert FirstBadItem(items, i, k);
    }
  }

  /** `get_building_urls_in_page`: one URL per building item, in document
      order, each the base URL followed by that item's title href. */
  function BuildingUrlsInPage(page: DirectoryPage): (r: Result<seq<string>, Error>)
    ensures r.Success? <==>
              forall k :: 0 <= k < |page.buildings| ==> BuildingHref(page.buildings[k], k).Success?
    ensures r.Success? ==>
              && |r.value| == |page.buildings|
              && forall k :: 0 <= k < |page.buildings| ==>
                   r.value[k] == BaseUrl + BuildingHref(page.buildings[k], k).value
    ensures r.Failure? ==>
              exists k :: 0 <= k < |page.buildings| && FirstBadItem(page.buildings, 0, k)
                          && r.error == BuildingHref(page.buildings[k], k).error
  {
    var r := UrlsFrom(page.buildings, 0);
    if r.Failure? then UrlsFromFirstError(page.buildings, 0); r else r
  }

  /** Removing the base URL from each extracted URL gives back the hrefs in
      document order. */
  lemma ExtractedUrlsCarryHrefs(page: DirectoryPage)
    requires BuildingUrlsInPage(page).Success?
    ensures forall k :: 0 <= k < |page.buildings| ==>
              var url := BuildingUrlsInPage(page).value[k];
              && url[..|BaseUrl|] == BaseUrl
              && url[|BaseUrl|..] == page.buildings[k].titles[0].anchors[0].href.value
  {
    var urls := BuildingUrlsInPage(page).value;
    forall k | 0 <= k < |page.buildings|
      ensures urls[k][..|BaseUrl|] == BaseUrl
      ensures urls[k][|BaseUrl|..] == page.buildings[k].titles[0].anchors[0].href.value
    {
      var h := BuildingHref(page.buildings[k], k).value;
      assert urls[k] == BaseUrl + h;
    }
  }

  /** A page without building items yields no URLs. */
  lemma EmptyPageHasNoUrls(page: DirectoryPage)
    requires |page.buildings| == 0
    ensures BuildingUrlsInPage(page) == Success([])
  {
  }
}
