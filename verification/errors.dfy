/** The exceptions the client can raise, one constructor per failure point. */
module Errors {

  datatype Error =
      /** `AssertionError` from the constructor: the neighborhood is not whitelisted. */
    | NeighborhoodNotSupported(neighborhood: string)
      /** An exception raised by the HTTP library itself (connection, DNS, timeout). */
    | ConnectionFailed(url: string)
      /** `HTTPError` from `raise_for_status`: a 4xx or 5xx answer. */
    | HttpStatus(url: string, status: int)
      /** `IndexError`: building item `item` has no title heading. */
    | MissingTitle(item: nat)
      /** `IndexError`: the title heading of building item `item` holds no anchor. */
    | MissingAnchor(item: nat)
      /** `TypeError`: the first title anchor of building item `item` has no href. */
    | MissingHref(item: nat)
      /** `ValueError` from `int()`: the last page indicator is not an integer. */
    | BadPageCount(text: string)
}
