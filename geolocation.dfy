/**
 * `get_browser_geolocation`: the payload built around one call into the browser
 * bridge. The bridge itself (JavaScript evaluated in the page) is replaced by its
 * abstract outcome, and the server clock by a timestamp parameter.
 */
module Geolocation {
  import opened Wrappers
  import opened PyValues

  /** What the bridge call did: raised an exception, or returned some value. */
  datatype BridgeOutcome = Raised(message: string) | Returned(value: PyValue)

  /** The payload dictionary the function returns. */
  type Payload = map<string, PyValue>

  const MethodKey := "method"
  const StatusKey := "status"
  const CoordsKey := "coords"
  const ErrorKey := "error"
  const ServerTimeKey := "server_time_utc"

  const Success := PyStr("success")
  const NoDataOrDenied := PyStr("no_data_or_denied")
  const ErrorStatus := PyStr("error")

  /**
   * The payload for one bridge outcome, stamped with `serverTime`. Whatever the
   * outcome, the payload names the method "geolocation" and carries the timestamp;
   * it reports "success" with the returned value under "coords" exactly when the
   * bridge returned a truthy value; a falsy value gives "no_data_or_denied" and no
   * coordinates; an exception gives "error" with its text and no coordinates.
   */
  function BrowserGeolocation(outcome: BridgeOutcome, serverTime: string): (p: Payload)
    ensures MethodKey in p && p[MethodKey] == PyStr("geolocation")
    ensures ServerTimeKey in p && p[ServerTimeKey] == PyStr(serverTime)
    ensures StatusKey in p && p[StatusKey] in {Success, NoDataOrDenied, ErrorStatus}
    ensures p[StatusKey] == Success <==> outcome.Returned? && Truthy(outcome.value)
    ensures CoordsKey in p <==> outcome.Returned? && Truthy(outcome.value)
    ensures CoordsKey in p ==> p[CoordsKey] == outcome.value
    ensures p[StatusKey] == NoDataOrDenied <==> outcome.Returned? && !Truthy(outcome.value)
    ensures p[StatusKey] == ErrorStatus <==> outcome.Raised?
    ensures ErrorKey in p <==> outcome.Raised?
    ensures ErrorKey in p ==> p[ErrorKey] == PyStr(outcome.message)
    ensures p.Keys <= {MethodKey, StatusKey, CoordsKey, ErrorKey, ServerTimeKey}
  {
    match outcome
    case Returned(coords) =>
      var base := map[MethodKey := PyStr("geolocation"), ServerTimeKey := PyStr(serverTime)];
      if Truthy(coords) then
        base[CoordsKey := coords][StatusKey := Success]
      else
        base[StatusKey := NoDataOrDenied]
    case Raised(e) =>
      map[MethodKey := PyStr("geolocation"), StatusKey := ErrorStatus,
          ErrorKey := PyStr(e), ServerTimeKey := PyStr(serverTime)]
  }

  /**
   * Reads a payload back into the bridge outcome it reports: the coordinates of a
   * success, the error text of an error, nothing for "no_data_or_denied" (the falsy
   * value itself is not kept).
   */
  function ReportedOutcome(p: Payload): (o: Option<BridgeOutcome>)
  {
    if StatusKey in p && p[StatusKey] == Success && CoordsKey in p then
      Some(Returned(p[CoordsKey]))
    else if StatusKey in p && p[StatusKey] == ErrorStatus && ErrorKey in p && p[ErrorKey].PyStr? then
      Some(Raised(p[ErrorKey].s))
    else
      None
  }

  /**
   * The payload loses nothing about an exception or a truthy result: reading it back
   * gives the outcome that produced it. Only which falsy value came back is lost.
   */
  lemma PayloadRecordsOutcome(outcome: BridgeOutcome, serverTime: string)
    ensures ReportedOutcome(BrowserGeolocation(outcome, serverTime))
            == if outcome.Returned? && !Truthy(outcome.value) then None else Some(outcome)
  {
  }

  /**
   * Every falsy result (None, False, 0, "", [] or {}) yields one and the same payload:
   * they are all reported as "no_data_or_denied".
   */
  lemma FalsyResultsAgree(v: PyValue, w: PyValue, serverTime: string)
    requires !Truthy(v) && !Truthy(w)
    ensures BrowserGeolocation(Returned(v), serverTime) == BrowserGeolocation(Returned(w), serverTime)
  {
  }

  /**
   * The keys of every payload: method, server_time_utc and status always, coords only
   * on success, error only after an exception.
   */
  lemma PayloadKeys(outcome: BridgeOutcome, serverTime: string)
    ensures var p := BrowserGeolocation(outcome, serverTime);
      p.Keys == {MethodKey, ServerTimeKey, StatusKey}
                + (if outcome.Returned? && Truthy(outcome.value) then {CoordsKey} else {})
                + (if outcome.Raised? then {ErrorKey} else {})
  {
  }
}
