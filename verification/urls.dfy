/** The directory URLs the client requests (client.py,
    `get_first_buildings_page_url` and `get_buildings_page_url`), together
    with a parser that recovers the filter from such a URL. */
module DirectoryUrls {
  import opened Wrappers
  import opened Text
  import opened Filter

  const BaseUrl: string := "https://streeteasy.com"

  /** Everything before the neighborhood in a directory URL. */
  const DirectoryRoot: string := BaseUrl + "/rental-buildings/"

  const AmenityMarker: string := "/building_amenities:"

  /** The query of the first page. */
  const FirstPageQuery: string := "refined_search=true"

  /** What follows the page number in later pages' queries; the `&amp;` is
      the literal five characters, not an escaped `&`. */
  const PageQueryTail: string := "&amp;refined_search=true"

  /** The amenity path segment: present exactly when there are amenities. */
  function AmenitySegment(amenities: seq<string>): (r: string)
    ensures r == "" <==> |amenities| == 0
  {
    if |amenities| > 0 then AmenityMarker + Join(",", amenities) else ""
  }

  /** The path both directory URLs share. */
  function DirectoryPath(f: ApartmentFilter): string {
    DirectoryRoot + (f.neighborhood + AmenitySegment(f.amenities))
  }

  function FirstBuildingsPageUrl(f: ApartmentFilter): string {
    DirectoryPath(f) + "?" + FirstPageQuery
  }

  /** The query of page `pageNumber`. */
  function PageQuery(pageNumber: int): string {
    "page=" + IntToString(pageNumber) + PageQueryTail
  }

  function BuildingsPageUrl(f: ApartmentFilter, pageNumber: int): string {
    DirectoryPath(f) + "?" + PageQuery(pageNumber)
  }

  /** What a directory URL says: the neighborhood, the amenities, and the
      page number when the URL names one. */
  datatype DirectoryQuery = DirectoryQuery(neighborhood: string, amenities: seq<string>, page: Option<int>)

  predicate StartsWith(s: string, prefix: string) {
    |prefix| <= |s| && s[..|prefix|] == prefix
  }

  predicate EndsWith(s: string, suffix: string) {
    |suffix| <= |s| && s[|s| - |suffix|..] == suffix
  }

  /** The page part of a query: `Some(None)` for the first page's query,
      `Some(Some(n))` for a later page's, `None` for anything else. */
  function ParsePageQuery(query: string): Option<Option<int>> {
    if query == FirstPageQuery then Some(None)
    else if StartsWith(query, "page=") && |query| >= 5 + |PageQueryTail| && EndsWith(query, PageQueryTail) then
      match ParseInt(query[5..|query| - |PageQueryTail|])
      case Some(n) => Some(Some(n))
      case None => None
    else None
  }

  /** The amenities of an amenity segment, which starts at its slash. */
  function ParseAmenitySegment(segment: string): Option<seq<string>> {
    if StartsWith(segment, AmenityMarker) then Some(Split(segment[|AmenityMarker|..], ',')) else None
  }

  /** The neighborhood and amenities of a directory path (after the root). */
  function ParsePath(path: string): Option<(string, seq<string>)> {
    match IndexOf(path, '/')
    case None => Some((path, []))
    case Some(slash) =>
      var amenities :- ParseAmenitySegment(path[slash..]);
      Some((path[..slash], amenities))
  }

  /** Reads a directory URL back: root, then path up to the first `?`, then query. */
  function ParseDirectoryUrl(url: string): Option<DirectoryQuery> {
    if !StartsWith(url, DirectoryRoot) then None
    else
      var rest := url[|DirectoryRoot|..];
      match IndexOf(rest, '?')
      case None => None
      case Some(q) =>
        var page :- ParsePageQuery(rest[q + 1..]);
        var parts :- ParsePath(rest[..q]);
        Some(DirectoryQuery(parts.0, parts.1, page))
  }

  /** A filter whose fields can be written into a URL unambiguously: the
      neighborhood is one path segment and no amenity contains a comma or `?`. */
  predicate UrlSafe(f: ApartmentFilter) {
    && '/' !in f.neighborhood && '?' !in f.neighborhood
    && forall k :: 0 <= k < |f.amenities| ==> ',' !in f.amenities[k] && '?' !in f.amenities[k]
  }

  /** A path with an amenity segment splits at the marker's slash. */
  lemma ParseAmenityPath(nb: string, joined: string)
    requires '/' !in nb
    ensures ParsePath(nb + AmenityMarker + joined) == Some((nb, Split(joined, ',')))
  {
    var path := nb + AmenityMarker + joined;
    assert IndexOf(path, '/') == Some(|nb|) by {
      assert path == nb + ['/'] + (AmenityMarker[1..] + joined);
      IndexOfAfter(nb, '/', AmenityMarker[1..] + joined);
    }
    assert path[..|nb|] == nb;
    assert path[|nb|..] == AmenityMarker + joined;
    ParseMarkedSegment(joined);
  }

  lemma ParseMarkedSegment(joined: string)
    ensures ParseAmenitySegment(AmenityMarker + joined) == Some(Split(joined, ','))
  {
    assert (AmenityMarker + joined)[..|AmenityMarker|] == AmenityMarker;
    assert (AmenityMarker + joined)[|AmenityMarker|..] == joined;
  }

  /** The path after the root holds no `?` when no field does. */
  lemma PathHasNoQuery(f: ApartmentFilter)
    requires UrlSafe(f)
    ensures '?' !in f.neighborhood + AmenitySegment(f.amenities)
  {
    if |f.amenities| > 0 {
      JoinExcludes(",", f.amenities, '?');
      assert '?' !in AmenityMarker;
    }
  }

  /** A non-empty amenity list without commas survives the path round trip. */
  lemma AmenityPathRoundTrip(nb: string, amenities: seq<string>)
    requires '/' !in nb
    requires |amenities| > 0
    requires forall k :: 0 <= k < |amenities| ==> ',' !in amenities[k]
    ensures ParsePath(nb + AmenitySegment(amenities)) == Some((nb, amenities))
  {
    var joined := Join(",", amenities);
    assert nb + AmenitySegment(amenities) == nb + AmenityMarker + joined;
    ParseAmenityPath(nb, joined);
    assert "," == [','];
    SplitJoin(amenities, ',');
  }

  /** The path of a URL-safe filter parses back to the filter's neighborhood
      and amenities, in order. */
  lemma PathRoundTrip(f: ApartmentFilter)
    requires UrlSafe(f)
    ensures ParsePath(f.neighborhood + AmenitySegment(f.amenities)) == Some((f.neighborhood, f.amenities))
  {
    if |f.amenities| > 0 {
      AmenityPathRoundTrip(f.neighborhood, f.amenities);
    } else {
      assert f.neighborhood + AmenitySegment(f.amenities) == f.neighborhood;
    }
  }

  /** Splits a directory URL with a `?`-free path at that `?`. */
  lemma SplitAtQuery(path: string, query: string)
    requires '?' !in path
    ensures var rest := (DirectoryRoot + path + "?" + query)[|DirectoryRoot|..];
            && StartsWith(DirectoryRoot + path + "?" + query, DirectoryRoot)
            && IndexOf(rest, '?') == Some(|path|)
            && rest[..|path|] == path
            && rest[|path| + 1..] == query
  {
    var url := DirectoryRoot + path + "?" + query;
    assert url == DirectoryRoot + (path + ['?'] + query);
    assert url[..|DirectoryRoot|] == DirectoryRoot;
    assert url[|DirectoryRoot|..] == path + ['?'] + query;
    IndexOfAfter(path, '?', query);
  }

  /** A directory URL of a URL-safe filter parses to the filter's neighborhood
      and amenities and to whatever page its query names. */
  lemma ParseFilterUrl(f: ApartmentFilter, query: string)
    requires UrlSafe(f)
    ensures ParseDirectoryUrl(DirectoryPath(f) + "?" + query) ==
              match ParsePageQuery(query)
              case None => None
              case Some(page) => Some(DirectoryQuery(f.neighborhood, f.amenities, page))
  {
    var path := f.neighborhood + AmenitySegment(f.amenities);
    PathHasNoQuery(f);
    PathRoundTrip(f);
    ParseUrlOfPath(path, query);
  }

  /** A directory URL whose path holds no `?` parses to what its path and
      its query say. */
  lemma ParseUrlOfPath(path: string, query: string)
    requires '?' !in path
    ensures ParseDirectoryUrl(DirectoryRoot + path + "?" + query) ==
              match ParsePageQuery(query)
              case None => None
              case Some(page) =>
                match ParsePath(path)
                case None => None
                case Some(parts) => Some(DirectoryQuery(parts.0, parts.1, page))
  {
    SplitAtQuery(path, query);
  }

  /** The first-page URL names the filter's neighborhood and amenities, in
      order, and no page number. */
  lemma FirstPageUrlRoundTrip(f: ApartmentFilter)
    requires UrlSafe(f)
    ensures ParseDirectoryUrl(FirstBuildingsPageUrl(f)) == Some(DirectoryQuery(f.neighborhood, f.amenities, None))
  {
    ParseFilterUrl(f, FirstPageQuery);
  }

  /** A later page's URL names the same neighborhood and amenities, and the
      page number it was built from. */
  lemma PageUrlRoundTrip(f: ApartmentFilter, n: int)
    requires UrlSafe(f)
    ensures ParseDirectoryUrl(BuildingsPageUrl(f, n)) == Some(DirectoryQuery(f.neighborhood, f.amenities, Some(n)))
  {
    ParseFilterUrl(f, PageQuery(n));
    PageQueryRoundTrip(n);
  }

  /** A later page's query names its page number. */
  lemma PageQueryRoundTrip(n: int)
    ensures ParsePageQuery(PageQuery(n)) == Some(Some(n))
  {
    var digits := IntToString(n);
    var query := PageQuery(n);
    assert query[0] == 'p' && FirstPageQuery[0] == 'r';
    assert query[..5] == "page=";
    assert query[|query| - |PageQueryTail|..] == PageQueryTail;
    assert query[5..|query| - |PageQueryTail|] == digits;
    ParseIntToString(n);
  }

  /** The two builders agree up to and including the first `?`: their URLs
      differ only in the query. */
  lemma UrlsShareDirectoryPath(f: ApartmentFilter, n: int)
    ensures var p := DirectoryPath(f); var first := FirstBuildingsPageUrl(f); var later := BuildingsPageUrl(f, n);
            && first[..|p|] == p == later[..|p|]
            && first[|p|] == '?' == later[|p|]
            && first[|p| + 1..] == FirstPageQuery
            && later[|p| + 1..] == "page=" + IntToString(n) + "&amp;refined_search=true"
  {
    var p := DirectoryPath(f);
    assert FirstBuildingsPageUrl(f) == p + ['?'] + FirstPageQuery;
    assert BuildingsPageUrl(f, n) == p + ['?'] + PageQuery(n);
  }

  /** Every page number gets its own URL and none of them is the first
      page's URL, whatever the filter holds. */
  lemma PageUrlsDistinct(f: ApartmentFilter, m: int, n: int)
    ensures m != n ==> BuildingsPageUrl(f, m) != BuildingsPageUrl(f, n)
    ensures BuildingsPageUrl(f, n) != FirstBuildingsPageUrl(f)
  {
    var head := DirectoryPath(f) + "?";
    assert BuildingsPageUrl(f, m)[|head|..] == PageQuery(m);
    assert BuildingsPageUrl(f, n)[|head|..] == PageQuery(n);
    assert FirstBuildingsPageUrl(f)[|head|..] == FirstPageQuery;
    assert PageQuery(n)[0] == 'p' != 'r' == FirstPageQuery[0];
    PageQueryRoundTrip(m);
    PageQueryRoundTrip(n);
  }

  /** The round trips need `UrlSafe`: an amenity holding a comma is written
      exactly like the two amenities on either side of it. */
  lemma CommaAmenityIsAmbiguous(f: ApartmentFilter)
    requires f.amenities == ["a,b"]
    ensures FirstBuildingsPageUrl(f) == FirstBuildingsPageUrl(f.(amenities := ["a", "b"]))
    ensures f.amenities != ["a", "b"]
  {
    JoinCons(",", "a", ["b"]);
  }

  /** A constructed client's neighborhood is one path segment, so only its
      amenities can make its URL ambiguous. */
  lemma ClientUrlRoundTrip(c: Client)
    requires forall k :: 0 <= k < |c.filter.amenities| ==> ',' !in c.filter.amenities[k] && '?' !in c.filter.amenities[k]
    ensures UrlSafe(c.filter)
    ensures ParseDirectoryUrl(FirstBuildingsPageUrl(c.filter)) == Some(DirectoryQuery(c.filter.neighborhood, c.filter.amenities, None))
  {
    AcceptedNeighborhoodIsSegment(c.filter);
    FirstPageUrlRoundTrip(c.filter);
  }
}
