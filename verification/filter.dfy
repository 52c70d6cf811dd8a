/** The search filter and the client constructor that validates it
    (client.py, `ApartmentFilter`, `valid_neighborhoods`, `StreetEasyClient.__init__`). */
module Filter {
  import opened Wrappers
  import opened Errors

  /** The five fields of the `ApartmentFilter` named tuple. Only `neighborhood`
      and `amenities` are read by the client; the numeric fields are carried
      along unused. */
  datatype ApartmentFilter = ApartmentFilter(
    neighborhood: string,
    minBedrooms: int,
    minBathrooms: int,
    maxPrice: Option<int>,
    amenities: seq<string>)

  /** The neighborhoods the constructor accepts, in the source's order. */
  const ValidNeighborhoods: seq<string> := ["manhattan", "brooklyn", "queens"]

  predicate ValidNeighborhood(n: string) {
    n in ValidNeighborhoods
  }

  /** A client and the filter it remembers. */
  datatype ClientState = ClientState(filter: ApartmentFilter)

  /** A constructed client: only a whitelisted neighborhood gets one. */
  type Client = c: ClientState | ValidNeighborhood(c.filter.neighborhood)
    witness ClientState(ApartmentFilter("manhattan", 0, 0, None, []))

  /** `StreetEasyClient(f)`: the neighborhood must be whitelisted; the
      amenities and numeric fields are not checked. */
  function NewClient(f: ApartmentFilter): (r: Result<Client, Error>)
    ensures r.Success? <==>
              f.neighborhood == "manhattan" || f.neighborhood == "brooklyn" || f.neighborhood == "queens"
    ensures r.Success? ==> r.value.filter == f
    ensures r.Failure? ==> r.error == NeighborhoodNotSupported(f.neighborhood)
  {
    if ValidNeighborhood(f.neighborhood) then Success(ClientState(f))
    else Failure(NeighborhoodNotSupported(f.neighborhood))
  }

  /** Construction does not look at the amenities or the numeric fields:
      two filters with the same neighborhood are accepted or rejected together. */
  lemma OnlyNeighborhoodValidated(f: ApartmentFilter, g: ApartmentFilter)
    requires f.neighborhood == g.neighborhood
    ensures NewClient(f).Success? <==> NewClient(g).Success?
    ensures NewClient(f).Failure? ==> NewClient(f).error == NewClient(g).error
  {
  }

  /** A client is only built for a neighborhood without a path or query
      delimiter, so the neighborhood is a single URL path segment. */
  lemma AcceptedNeighborhoodIsSegment(f: ApartmentFilter)
    ensures NewClient(f).Success? ==> '/' !in f.neighborhood && '?' !in f.neighborhood
  {
  }
}
