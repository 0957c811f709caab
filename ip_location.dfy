/**
 * `get_ip_location`: two IP-geolocation lookups issued one after the other inside a
 * single `try`. Each lookup is reduced to its abstract outcome: the parsed JSON body,
 * or a failure (transport error, timeout, body that is not JSON). A failure of either
 * lookup lands in the one `except` and yields `(None, None)`.
 */
module IpLocation {
  import opened PyValues

  datatype Lookup = Fetched(body: PyValue) | LookupFailed(reason: string)

  /**
   * The pair the function returns. The three possible shapes are spelled out: both
   * bodies when both lookups succeed, and `(None, None)` as soon as either fails,
   * even if the first one had already produced a body.
   */
  function GetIpLocation(first: Lookup, second: Lookup): (r: (PyValue, PyValue))
    ensures first.Fetched? && second.Fetched? ==> r.0 == first.body && r.1 == second.body
    ensures first.LookupFailed? || second.LookupFailed? ==> r.0 == PyNone && r.1 == PyNone
  {
    match first
    case LookupFailed(_) => (PyNone, PyNone)
    case Fetched(a) =>
      match second
      case LookupFailed(_) => (PyNone, PyNone)
      case Fetched(b) => (a, b)
  }

  /**
   * When the first lookup fails the second is never issued, so its outcome cannot
   * influence the result.
   */
  lemma SecondIrrelevantAfterFirstFails(reason: string, x: Lookup, y: Lookup)
    ensures GetIpLocation(LookupFailed(reason), x) == GetIpLocation(LookupFailed(reason), y)
  {
  }

  /**
   * All or nothing: a result with any non-None component can only come from two
   * successful lookups, and then it returns both bodies unchanged.
   */
  lemma AllOrNothing(first: Lookup, second: Lookup)
    ensures GetIpLocation(first, second).0 != PyNone || GetIpLocation(first, second).1 != PyNone
            ==> first.Fetched? && second.Fetched?
                && GetIpLocation(first, second) == (first.body, second.body)
  {
  }

  /**
   * Since failure is reported as `(None, None)`, a caller cannot tell a failed lookup
   * from two lookups whose JSON bodies were both `null`.
   */
  lemma NullBodiesLookLikeFailure(reason: string, second: Lookup)
    ensures GetIpLocation(Fetched(PyNone), Fetched(PyNone)) == GetIpLocation(LookupFailed(reason), second)
  {
  }
}
