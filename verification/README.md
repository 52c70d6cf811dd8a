# StreetEasy building-directory crawler, modelled in Dafny

This project models `client.py` of a small scraper for the StreetEasy rental
site. Given an apartment filter, the client crawls the paginated directory of
rental buildings for one neighborhood and returns the URL of every building
listed, in directory order.

The model covers:

- **Filter validation.** Constructing a client accepts only the neighborhoods
  `manhattan`, `brooklyn` and `queens`. Amenities and the numeric fields are
  not checked. The type `Filter.Client` admits only clients with a
  whitelisted neighborhood, so the crawl is only run for such clients.
- **Directory URLs.** The first page's URL is the base origin, then
  `/rental-buildings/<neighborhood>`, then `/building_amenities:<a1>,<a2>,…`
  when there are amenities, then `?refined_search=true`. Page `n` has the same
  path followed by `?page=<n>&amp;refined_search=true`. The `&amp;` is the
  literal five characters, exactly as the code writes it. A standard query
  parser would therefore read a parameter named `amp;refined_search` on later
  pages. The model keeps the code's string as it is.
- **Per-page extraction.** For each building item in document order, the
  client takes the href of the first anchor in the item's first title heading
  and prefixes it with the base URL.
- **Pagination.** The client reads the page count from the stripped text of
  the last page indicator. It then fetches pages 2 to that count in order and
  appends their building URLs, keeping duplicates. A first page without
  indicators ends the crawl. `get_apartments` returns that list unfiltered.

The HTML document is abstract. `Document.DirectoryPage` holds the building
items, each with its title headings and their anchors, and the texts of the
page indicators. The network is a parameter, `Crawl.Network`, with two
functions from URL to response:

- `prime` answers the warm-up request for the first page, whose answer the
  client discards;
- `get` answers every other request.

Two forms of the crawl are modelled:

- a pure function, `Crawl.AllBuildingsUrls`;
- a method, `Crawl.GetAllBuildingsUrls`, shaped like the source's loop. It also
  returns the log of URLs it requested, so the double fetch of the first page,
  and the absence of any further fetch, can be stated.

Python's `str.strip()`, `','.join`, `str(int)` and `int(str)` are modelled in
module `Text`. Each error the code can raise is a constructor of
`Errors.Error`, returned through `Wrappers.Result`.

`client.py` validates nothing but the neighborhood: amenities are written
into the URL as given. `get_apartments` returns the building URLs unchanged.
`int()` accepts a negative page count, and the page loop then fetches no
further pages.

## Model

| member | source | states |
|---|---|---|
| Filter.NewClient | client.py:16-23 | Construction succeeds exactly when the neighborhood is `manhattan`, `brooklyn` or `queens`. The client then holds the filter unchanged. Otherwise it fails with the rejected neighborhood. |
| Filter.OnlyNeighborhoodValidated | client.py:21-23 | Two filters with the same neighborhood are accepted or rejected together, whatever their amenities and numeric fields. |
| Filter.AcceptedNeighborhoodIsSegment | client.py:16-23 | A client is only built for a neighborhood without `/` or `?`, so its neighborhood is a single URL path segment. |
| DirectoryUrls.AmenitySegment | client.py:76-77 | The amenity segment is empty exactly when the amenity list is empty. |
| DirectoryUrls.PathRoundTrip | client.py:75-77 | For a URL-safe filter, parsing the path after the directory root gives back the neighborhood and every amenity, in the given order. URL-safe (`UrlSafe`) means no amenity contains `,` or `?` and the neighborhood contains no `/` or `?`. |
| DirectoryUrls.FirstPageUrlRoundTrip | client.py:74-79 | For a URL-safe filter, parsing the first-page URL gives back the neighborhood, the amenities in order, and no page number. |
| DirectoryUrls.PageUrlRoundTrip | client.py:81-86 | For a URL-safe filter, parsing the page-`n` URL gives back the same neighborhood and amenities, and the page number `n`. |
| DirectoryUrls.UrlsShareDirectoryPath | client.py:74-86 | Both URLs are the same directory path followed by `?`. Only the queries differ: `refined_search=true` versus `page=<n>&amp;refined_search=true`. |
| DirectoryUrls.PageUrlsDistinct | client.py:81-86 | For every filter, different page numbers give different URLs, and no page URL equals the first-page URL. |
| DirectoryUrls.ClientUrlRoundTrip | client.py:21-23 | Every constructed client whose amenities contain no comma or `?` gets a first-page URL that parses back to its neighborhood and amenities, because the constructor only admits neighborhoods without `/` or `?`. |
| DirectoryUrls.CommaAmenityIsAmbiguous | client.py:76-78 | The URL-safety condition of the round trips is needed: the amenity list `["a,b"]` gives the same first-page URL as `["a", "b"]`. |
| Text.SplitJoin | client.py:77 | For a non-empty list in which no item contains a comma, splitting its comma-join on commas gives back the list. |
| Text.JoinSplit | client.py:77 | Joining the comma-split pieces of any string restores the string, in this direction, for every string. |
| Text.Strip | client.py:41 | The indicator text is the result surrounded by Python whitespace only, and the result neither starts nor ends with whitespace. |
| Text.StripPadded | client.py:41 | Stripping removes exactly the whitespace padding around a string that neither starts nor ends with whitespace. |
| Text.ParseInt | client.py:41 | `int()` succeeds exactly on an optional sign followed by one or more ASCII digits, with no length limit (see "Left out"). |
| Text.ParseIntPadded | client.py:41 | A `+` sign and leading zeros leave the value unchanged and a `-` sign negates it: for `n >= 0`, `int("+007")`-style texts give `n` and `-007`-style texts give `-n`. |
| Text.ParseIntToString | client.py:41 | `int(str(n)) == n` for every integer `n`. |
| Document.BuildingHref | client.py:53 | An item's href is read from the first anchor of its first title heading. A missing heading gives `MissingTitle`, a missing anchor gives `MissingAnchor` (both an `IndexError` in Python), and a missing href gives `MissingHref` (a `TypeError`), each naming the item's position. |
| Document.BuildingUrlsInPage | client.py:50-55 | Extraction succeeds exactly when every item has an href. The result then has one URL per building item, in document order, each being the base URL followed by that item's href. On failure, the error is that of the first item without an href. |
| Document.UrlsFromFirstError | client.py:52-55 | The comprehension stops at the first item without an href and fails with that item's error. |
| Document.ExtractedUrlsCarryHrefs | client.py:53 | Every extracted URL starts with the base URL. Removing the base URL leaves that item's href. |
| Document.EmptyPageHasNoUrls | client.py:51-55 | A page without building items yields the empty list. |
| Crawl.Fetch | client.py:68-71 | A fetch succeeds exactly when the request completes with a status outside 400-599, and it then yields that response's document. A transport failure or a 4xx/5xx status is the corresponding error. |
| Crawl.InitialBuildingsPage | client.py:57-66 | The warm-up answer is discarded unchecked: only its transport failure matters. Otherwise the first page is the second response, checked by status. |
| Crawl.WarmupAnswerIgnored | client.py:60-64 | Whatever status the warm-up answer carries, the first page is the same, because only the second answer is checked and parsed. |
| Crawl.NoIndicatorsFetchesNothingMore | client.py:36-39 | When the first page has no page indicators, the result depends only on the two requests for the first page and equals the first page's URLs. |
| Crawl.PageCount | client.py:41 | The count is what `int()` reads from the stripped text of the last indicator; earlier indicators are ignored. A text `int()` rejects fails with `BadPageCount` carrying the stripped text. |
| Crawl.PageCountReadsIndicator | client.py:36-41 | When the last page indicator shows `n`, padded by any whitespace, the page count is `n`. |
| Crawl.CollectPagesSucceedTogether | client.py:43-46 | Pages 2 to `last` are collected exactly when every one of them succeeds. |
| Crawl.CollectPagesInPageOrder | client.py:43-46 | On success, the collected URLs are the per-page lists concatenated in increasing page order, with duplicates kept. |
| Crawl.CollectPagesFirstError | client.py:43-46 | On failure, the error is that of the lowest-numbered failing page, and every page below it succeeded. |
| Crawl.CollectPagesFailureStops | client.py:43-46 | Once page `i` fails, every crawl that reaches page `i` fails with that page's error. |
| Crawl.FlattenLength | client.py:43-46 | The concatenated result is exactly as long as the per-page lists together. |
| Crawl.AllBuildingsUrlsOrder | client.py:30-48 | On success, the result is page 1's URLs followed by those of pages 2 to the last, in page order. Its length is the sum of the per-page lengths. With no indicators, or a page count of at most 1, the result is page 1's URLs alone. |
| Crawl.CrawlLaterPages | client.py:43-46 | The loop computes the same result as the page collection. Its request log is the page-`k` URL for `k` from 2 upward. On success it holds one entry per page from 2 to the count. On failure it ends at the failing page: every earlier page succeeded, the last one logged failed, and the crawl's error is that page's. |
| Crawl.CrawlFromFirstPage | client.py:33-46 | Once the first page is fetched, the loop computes the same result as the pure crawl. Its log holds the page-`k` URL for `k` from 2 upward. On success, the log holds one entry per page from 2 to the last page. On failure, it is empty exactly when the first page has an item without an href or an unreadable page count. Otherwise it ends at the failing page. |
| Crawl.GetAllBuildingsUrls | client.py:30-48 | The looping crawl equals `AllBuildingsUrls`. Request `k` is the first-page URL for `k < 2` and the page-`k` URL after that. Only one request is sent when the warm-up fails in transport. On success, exactly two requests are sent when the last page is at most 1, and otherwise the last page number plus one. On failure, at most two requests are sent exactly when the first page, its URLs or its page count fail. Otherwise the log ends at the failing page: every page from 2 up to it succeeded, and the crawl's error is that page's. |
| Crawl.GetApartments | client.py:26-28 | The apartments are exactly the building URLs, with no filtering. |

## Left out

- HTTP: `requests.get`, its headers and timeouts are not modelled. Each request is a value of the `Network` parameter: a status with a parsed document, or a transport failure.
- The upstream bot detection is not modelled. Its only trace is the separate `prime` function, whose answer the client discards.
- HTML parsing and `find_all` selector matching are not modelled, because the parser library is not part of this model. The document arrives already reduced to `li` elements whose class attribute is `item building`, their `h3.details-title` headings and anchors, and the texts of the `span.page` elements, in document order.
- `int()` on indicator text only accepts an optional sign followed by ASCII digits. Underscore digit separators and non-ASCII Unicode decimal digits, which Python also accepts, are not modelled.
- Text.ParseInt: accepts decimal text of any length. CPython 3.11 and later, and the 3.10.7, 3.9.14 and 3.8.14 security releases, raise `ValueError` for more than 4300 digits (`sys.get_int_max_str_digits()`). The limit depends on the interpreter version and configuration, so it is not modelled.
- `str.strip()` removes exactly the characters `str.isspace()` accepts, taken from Python's fixed whitespace table. The table is listed as constants, not derived from the Unicode database.
- The constructor check is a Python `assert`, so it disappears under `python -O`. The model always applies it.
- Filter fields are given fixed types: a string neighborhood, a list of string amenities, and integer numeric fields. Python errors from ill-typed values, such as a non-string amenity in `','.join`, are not modelled.
- `main.py` is not modelled. It is an entry point that builds one hard-coded filter and prints the URLs.
- Unit-record extraction and price, bedroom and bathroom filtering are not modelled because they do not exist in `client.py`.
