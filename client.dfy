/**
 * The prayer-time client: it issues one GET per operation, classifies the
 * outcome (transport failure, HTTP error status, body that is not JSON,
 * error object inside a successful response, success) and decodes the JSON
 * into records. The network is a parameter: `fetch` gives the transport
 * outcome of a request.
 */
module Client {
  import opened Wrappers
  import opened Json
  import opened Decoding
  import opened SwiftInt
  import opened ApiErrors
  import opened Zones
  import opened States
  import opened PrayerTimes
  import opened Solat
  import opened Exceptions

  // ---------------------------------------------------------------- requests

  datatype QueryItem = QueryItem(name: string, value: string)

  /** A GET of `endpoint` below the service's base address, with its query items if any. */
  datatype Request = Request(endpoint: string, queryItems: Option<seq<QueryItem>>)

  /** What the platform's JSON parser made of a response body. */
  datatype ParsedBody = Parsed(json: Value) | NotJson(reason: string)

  /** A response body: its text when it is valid UTF-8, and its parse. */
  datatype Body = Body(utf8: Option<string>, parsed: ParsedBody)

  /** The outcome of one round trip: the call failed, the response was not HTTP, or an HTTP status and body. */
  datatype Transport = Failed(reason: string) | NonHttp | Http(status: int, body: Body)

  type Fetch = Request -> Transport

  predicate HasPrefix(s: string, prefix: string) {
    |prefix| <= |s| && s[..|prefix|] == prefix
  }

  const NETWORK_ERROR: string := "Network error: "
  const UNEXPECTED_RESPONSE_TYPE: string := "Unexpected response type from API"
  const API_ERROR: string := "API Error: "
  const REQUEST_FAILED: string := "API Request failed with status "
  const RESPONSE_SEPARATOR: string := ". Response: "
  const NON_UTF8_BODY: string := "<non-UTF8 response body>"
  const PARSE_FAILED: string := "Failed to parse API response: "
  const UNEXPECTED_ERROR: string := "An unexpected error occurred: "
  /** The parser's complaint about a top level that is neither an array nor an object (fragments are not enabled). */
  const FRAGMENT_REJECTED: string := "JSON text did not start with array or object and option to allow fragments not set."

  /** The error payload a body carries, if it parses and decodes as one. */
  function BodyApiError(body: Body): (e: Option<ApiError>)
    ensures e.Some? <==> body.parsed.Parsed? && DecodeApiError(body.parsed.json).Success?
    ensures e.Some? ==> DecodeApiError(body.parsed.json) == Success(e.value)
  {
    if body.parsed.Parsed? && DecodeApiError(body.parsed.json).Success? then Some(DecodeApiError(body.parsed.json).value)
    else None
  }

  /** The body as text, or a placeholder when it is not UTF-8. */
  function BodyText(body: Body): (text: string)
    ensures body.utf8.Some? ==> text == body.utf8.value
    ensures body.utf8.None? ==> text == NON_UTF8_BODY
  {
    if body.utf8.Some? then body.utf8.value else NON_UTF8_BODY
  }

  /** The top-level values the parser accepts when fragments are not enabled: arrays and objects. */
  predicate IsTopLevel(v: Value) {
    v.JArr? || v.JObj?
  }

  /** An object whose `status` member is the string "error": the service's failure signal inside a successful response. */
  predicate HasErrorMarker(v: Value) {
    v.JObj? && "status" in v.fields && v.fields["status"] == JStr("error")
  }

  /**
   * `getRequest` once the round trip is done. Checked in this order: the
   * transport failed; the response is not HTTP; the status is 400 or more;
   * the body is not JSON, or its top level is neither an array nor an
   * object; the JSON is an object with status "error". Otherwise the parsed
   * JSON is the result.
   */
  function Classify(t: Transport): (r: Result<Value, ApiException>)
    // success exactly when every check passes, with the parsed JSON unchanged
    ensures r.Success? <==> t.Http? && t.status < 400 && t.body.parsed.Parsed?
                            && IsTopLevel(t.body.parsed.json) && !HasErrorMarker(t.body.parsed.json)
    ensures r.Success? ==> r.value == t.body.parsed.json
    ensures t.Failed? ==> r == Failure(NewApiException(NETWORK_ERROR + t.reason))
    ensures t.NonHttp? ==> r == Failure(NewApiException(UNEXPECTED_RESPONSE_TYPE))
    // an error status always fails with that status and whatever error payload the body decodes to
    ensures t.Http? && t.status >= 400 ==>
              r.Failure? && r.error.statusCode == Some(t.status) && r.error.apiError == BodyApiError(t.body)
    ensures t.Http? && t.status >= 400 && BodyApiError(t.body).Some? ==>
              r.error.message == API_ERROR + BodyApiError(t.body).value.message
    ensures t.Http? && t.status >= 400 && BodyApiError(t.body).None? ==>
              r.error.message == REQUEST_FAILED + DecimalString(t.status) + RESPONSE_SEPARATOR + BodyText(t.body)
    ensures t.Http? && t.status < 400 && t.body.parsed.NotJson? ==>
              r == Failure(NewApiException(PARSE_FAILED + t.body.parsed.reason))
    // a scalar or null at the top level is a parse failure too
    ensures t.Http? && t.status < 400 && t.body.parsed.Parsed? && !IsTopLevel(t.body.parsed.json) ==>
              r == Failure(NewApiException(PARSE_FAILED + FRAGMENT_REJECTED))
    // an error object in a successful response: its message verbatim, with the response's status
    ensures t.Http? && t.status < 400 && t.body.parsed.Parsed? && HasErrorMarker(t.body.parsed.json) ==>
              match DecodeApiError(t.body.parsed.json)
              case Success(e) => r == Failure(NewApiException(e.message, Some(t.status), Some(e)))
              case Failure(de) => r == Failure(NewApiException(UNEXPECTED_ERROR + Describe(de)))
  {
    match t
    case Failed(reason) => Failure(NewApiException(NETWORK_ERROR + reason))
    case NonHttp => Failure(NewApiException(UNEXPECTED_RESPONSE_TYPE))
    case Http(status, body) =>
      if status >= 400 then
        match BodyApiError(body)
        case Some(e) => Failure(NewApiException(API_ERROR + e.message, Some(status), Some(e)))
        case None => Failure(NewApiException(REQUEST_FAILED + DecimalString(status) + RESPONSE_SEPARATOR + BodyText(body), Some(status)))
      else
        match body.parsed
        case NotJson(reason) => Failure(NewApiException(PARSE_FAILED + reason))
        case Parsed(json) =>
          if !IsTopLevel(json) then Failure(NewApiException(PARSE_FAILED + FRAGMENT_REJECTED))
          else if HasErrorMarker(json) then
            match DecodeApiError(json)
            case Success(e) => Failure(NewApiException(e.message, Some(status), Some(e)))
            case Failure(de) => Failure(NewApiException(UNEXPECTED_ERROR + Describe(de)))
          else Success(json)
  }

  /** A status code on an exception is always the HTTP status the response carried. */
  lemma StatusCodeIsResponseStatus(t: Transport)
    requires Classify(t).Failure? && Classify(t).error.statusCode.Some?
    ensures t.Http? && Classify(t).error.statusCode.value == t.status
  {
  }

  /** An error payload on an exception is always the one the response body decodes to. */
  lemma ApiErrorComesFromBody(t: Transport)
    requires Classify(t).Failure? && Classify(t).error.apiError.Some?
    ensures t.Http? && t.body.parsed.Parsed? && DecodeApiError(t.body.parsed.json) == Success(Classify(t).error.apiError.value)
  {
  }

  /** A body with only a message is no error payload, so an error status gets the generic message. */
  lemma MessageOnlyErrorBody(status: int, text: Option<string>, message: string)
    requires status >= 400
    ensures var t := Http(status, Body(text, Parsed(JObj(map["message" := JStr(message)]))));
            && Classify(t).Failure?
            && Classify(t).error.statusCode == Some(status)
            && Classify(t).error.apiError.None?
            && HasPrefix(Classify(t).error.message, REQUEST_FAILED)
  {
    MessageOnlyIsNotApiError(message);
  }

  /** The service's "zone not found" object inside a 200 response fails with its message verbatim and status 200. */
  lemma EmbeddedErrorIn200(text: Option<string>, message: string)
    ensures var t := Http(200, Body(text, Parsed(JObj(map["status" := JStr("error"), "message" := JStr(message)]))));
            Classify(t) == Failure(ApiException(message, Some(200), Some(ApiError("error", message))))
  {
    EmbeddedErrorPayload(message);
  }

  // ------------------------------------------------------------- query items

  /** The query of a monthly request: `year` before `month`, each only when given. */
  function QueryItems(year: Option<int>, month: Option<int>): (items: seq<QueryItem>)
    ensures |items| == (if year.Some? then 1 else 0) + (if month.Some? then 1 else 0)
    ensures year.Some? ==> items[0] == QueryItem("year", DecimalString(year.value))
    ensures month.Some? ==> items[|items| - 1] == QueryItem("month", DecimalString(month.value))
  {
    (if year.Some? then [QueryItem("year", DecimalString(year.value))] else [])
    + (if month.Some? then [QueryItem("month", DecimalString(month.value))] else [])
  }

  /** Builds the query items one conditional append at a time. */
  method BuildQueryItems(year: Option<int>, month: Option<int>) returns (items: seq<QueryItem>)
    ensures items == QueryItems(year, month)
  {
    items := [];
    if year.Some? {
      items := items + [QueryItem("year", DecimalString(year.value))];
    }
    if month.Some? {
      items := items + [QueryItem("month", DecimalString(month.value))];
    }
  }

  /** An empty list of query items attaches no query at all. */
  function AttachedQuery(items: seq<QueryItem>): (q: Option<seq<QueryItem>>)
    ensures q.None? <==> items == []
    ensures q.Some? ==> q.value == items
  {
    if |items| == 0 then None else Some(items)
  }

  /**
   * Every query item is a year or a month whose value reads back as the
   * number given, and a year always comes before a month.
   */
  predicate ReadsBackAs(items: seq<QueryItem>, year: Option<int>, month: Option<int>) {
    && (forall k :: 0 <= k < |items| ==> items[k].name == "year" || items[k].name == "month")
    && (forall k :: 0 <= k < |items| && items[k].name == "year" ==> year.Some? && ParseInt(items[k].value) == year)
    && (forall k :: 0 <= k < |items| && items[k].name == "month" ==> month.Some? && ParseInt(items[k].value) == month)
    && (forall j, k :: 0 <= j < |items| && 0 <= k < |items| && items[j].name == "month" && items[k].name == "year" ==> k < j)
  }

  lemma QueryItemsReadBack(year: Option<int>, month: Option<int>)
    requires year.Some? ==> IsInt64(year.value)
    requires month.Some? ==> IsInt64(month.value)
    ensures ReadsBackAs(QueryItems(year, month), year, month)
  {
    if year.Some? && month.Some? {
      YearThenMonth(year.value, month.value);
    } else if year.Some? {
      OneItem("year", year.value);
      assert QueryItems(year, month) == [QueryItem("year", DecimalString(year.value))];
    } else if month.Some? {
      OneItem("month", month.value);
      assert QueryItems(year, month) == [QueryItem("month", DecimalString(month.value))];
    } else {
      assert QueryItems(year, month) == [];
    }
  }

  lemma YearThenMonth(year: int, month: int)
    requires IsInt64(year) && IsInt64(month)
    ensures ReadsBackAs(QueryItems(Some(year), Some(month)), Some(year), Some(month))
  {
    var items := QueryItems(Some(year), Some(month));
    assert items == [QueryItem("year", DecimalString(year)), QueryItem("month", DecimalString(month))];
    assert "year" != "month";
  }

  lemma OneItem(name: string, value: int)
    requires name == "year" || name == "month"
    requires IsInt64(value)
    ensures var given := Some(value);
            ReadsBackAs([QueryItem(name, DecimalString(value))],
                        if name == "year" then given else None, if name == "month" then given else None)
  {
    assert "year" != "month";
  }

  // ------------------------------------------------------------ record lists

  const STATES_ENDPOINT: string := "/v2/negeri"
  const ZONES_ENDPOINT: string := "/zones"
  const STATES_NOT_A_LIST: string := "Unexpected response format received for /v2/negeri. Expected a List."
  const ZONES_NOT_A_LIST: string := "Unexpected response format received for /zones. Expected a List of zone objects."
  const STATES_PARSE_FAILED: string := "Failed to parse states list: "
  const ZONES_PARSE_FAILED: string := "Failed to parse zone info list response: "

  /** A list element must be an object before it is decoded as a record. */
  function ObjectElement<T>(v: Value, decode: Value -> Result<T, DecodeError>): (r: Result<T, DecodeError>)
    ensures r.Success? <==> v.JObj? && decode(v).Success?
    ensures r.Success? ==> decode(v) == r
  {
    if v.JObj? then decode(v) else Failure(DecodeError(DataCorrupted, []))
  }

  /**
   * A list endpoint's response: request exceptions pass through unchanged;
   * a top level that is not an array, or any element that is not an object
   * or does not decode, becomes one exception without status code.
   */
  function DecodeList<T>(response: Result<Value, ApiException>, notAList: string, parseFailed: string,
                         decode: Value -> Result<T, DecodeError>): (r: Result<seq<T>, ApiException>)
    ensures response.Failure? ==> r == Failure(response.error)
    ensures response.Success? && !response.value.JArr? ==> r == Failure(NewApiException(notAList))
    ensures response.Success? && response.value.JArr? ==>
              (r.Success? <==> forall k :: 0 <= k < |response.value.items| ==> ObjectElement(response.value.items[k], decode).Success?)
    // success keeps the payload's order and count
    ensures r.Success? ==> response.Success? && response.value.JArr? && |r.value| == |response.value.items|
    ensures r.Success? ==> forall k :: 0 <= k < |r.value| ==>
                             response.value.items[k].JObj? && decode(response.value.items[k]) == Success(r.value[k])
    // a failure reports the first element that fails, without its position and without status code
    ensures response.Success? && response.value.JArr? && r.Failure? ==>
              var items := response.value.items;
              exists k :: 0 <= k < |items| && ObjectElement(items[k], decode).Failure?
                          && (forall j :: 0 <= j < k ==> ObjectElement(items[j], decode).Success?)
                          && r.error == NewApiException(parseFailed + Describe(ObjectElement(items[k], decode).error))
  {
    var json :- response;
    if !json.JArr? then Failure(NewApiException(notAList))
    else
      match DecodeEach(json.items, (v: Value) => ObjectElement(v, decode))
      case Failure(failed) => Failure(NewApiException(parseFailed + Describe(failed.1)))
      case Success(records) => Success(records)
  }

  const STATES_REQUEST: Request := Request(STATES_ENDPOINT, None)
  const ZONES_REQUEST: Request := Request(ZONES_ENDPOINT, None)

  /** `getStates`: every state and its zone codes. */
  function GetStates(fetch: Fetch): (r: Result<seq<WaktuState>, ApiException>)
    ensures Classify(fetch(STATES_REQUEST)).Failure? ==> r == Failure(Classify(fetch(STATES_REQUEST)).error)
    ensures Classify(fetch(STATES_REQUEST)).Success? && !Classify(fetch(STATES_REQUEST)).value.JArr? ==>
              r == Failure(NewApiException(STATES_NOT_A_LIST))
    // an array: success exactly when every element is an object that decodes,
    // and otherwise the first element that does not, wrapped without status code
    ensures Classify(fetch(STATES_REQUEST)).Success? && Classify(fetch(STATES_REQUEST)).value.JArr? ==>
              var items := Classify(fetch(STATES_REQUEST)).value.items;
              && (r.Success? <==> forall k :: 0 <= k < |items| ==> ObjectElement(items[k], DecodeWaktuState).Success?)
              && (r.Failure? ==>
                    exists k :: 0 <= k < |items| && ObjectElement(items[k], DecodeWaktuState).Failure?
                                && (forall j :: 0 <= j < k ==> ObjectElement(items[j], DecodeWaktuState).Success?)
                                && r.error == NewApiException(STATES_PARSE_FAILED + Describe(ObjectElement(items[k], DecodeWaktuState).error)))
    ensures r.Success? ==>
              Classify(fetch(STATES_REQUEST)).Success? && Classify(fetch(STATES_REQUEST)).value.JArr? &&
              var items := Classify(fetch(STATES_REQUEST)).value.items;
              |r.value| == |items| && forall k :: 0 <= k < |items| ==> DecodeWaktuState(items[k]) == Success(r.value[k])
  {
    DecodeList(Classify(fetch(STATES_REQUEST)), STATES_NOT_A_LIST, STATES_PARSE_FAILED, DecodeWaktuState)
  }

  /** `getZones`: every zone with its state and districts. */
  function GetZones(fetch: Fetch): (r: Result<seq<ZoneInfo>, ApiException>)
    ensures Classify(fetch(ZONES_REQUEST)).Failure? ==> r == Failure(Classify(fetch(ZONES_REQUEST)).error)
    ensures Classify(fetch(ZONES_REQUEST)).Success? && !Classify(fetch(ZONES_REQUEST)).value.JArr? ==>
              r == Failure(NewApiException(ZONES_NOT_A_LIST))
    // an array: success exactly when every element is an object that decodes,
    // and otherwise the first element that does not, wrapped without status code
    ensures Classify(fetch(ZONES_REQUEST)).Success? && Classify(fetch(ZONES_REQUEST)).value.JArr? ==>
              var items := Classify(fetch(ZONES_REQUEST)).value.items;
              && (r.Success? <==> forall k :: 0 <= k < |items| ==> ObjectElement(items[k], DecodeZoneInfo).Success?)
              && (r.Failure? ==>
                    exists k :: 0 <= k < |items| && ObjectElement(items[k], DecodeZoneInfo).Failure?
                                && (forall j :: 0 <= j < k ==> ObjectElement(items[j], DecodeZoneInfo).Success?)
                                && r.error == NewApiException(ZONES_PARSE_FAILED + Describe(ObjectElement(items[k], DecodeZoneInfo).error)))
    ensures r.Success? ==>
              Classify(fetch(ZONES_REQUEST)).Success? && Classify(fetch(ZONES_REQUEST)).value.JArr? &&
              var items := Classify(fetch(ZONES_REQUEST)).value.items;
              |r.value| == |items| && forall k :: 0 <= k < |items| ==> DecodeZoneInfo(items[k]) == Success(r.value[k])
  {
    DecodeList(Classify(fetch(ZONES_REQUEST)), ZONES_NOT_A_LIST, ZONES_PARSE_FAILED, DecodeZoneInfo)
  }

  // ------------------------------------------------------- monthly schedules

  const SOLAT_PARSE_FAILED: string := "Failed to parse SolatV2 response: "

  /**
   * A monthly response: request exceptions are rethrown unchanged; a top
   * level that is not an object, or a payload that does not decode, becomes
   * one exception without status code.
   */
  function SolatOutcome(response: Result<Value, ApiException>): (r: Result<SolatV2, ApiException>)
    ensures response.Failure? ==> r == Failure(response.error)
    ensures response.Success? ==> (r.Success? <==> DecodeSolatV2(response.value).Success?)
    ensures r.Success? ==> DecodeSolatV2(response.value) == Success(r.value)
    ensures response.Success? && !response.value.JObj? ==>
              r == Failure(NewApiException(SOLAT_PARSE_FAILED + Describe(DecodeError(DataCorrupted, []))))
    ensures response.Success? && response.value.JObj? && r.Failure? ==>
              r.error == NewApiException(SOLAT_PARSE_FAILED + Describe(DecodeSolatV2(response.value).error))
  {
    var json :- response;
    if !json.JObj? then Failure(NewApiException(SOLAT_PARSE_FAILED + Describe(DecodeError(DataCorrupted, []))))
    else
      match DecodeSolatV2(json)
      case Failure(e) => Failure(NewApiException(SOLAT_PARSE_FAILED + Describe(e)))
      case Success(solat) => Success(solat)
  }

  /** The monthly request of a zone: `/v2/solat/<zone>`, with a query only when a year or a month is given. */
  function ZoneRequest(zone: string, year: Option<int>, month: Option<int>): (request: Request)
    ensures request.endpoint == "/v2/solat/" + zone
    ensures request.queryItems.None? <==> year.None? && month.None?
    ensures request.queryItems.Some? ==> request.queryItems.value == QueryItems(year, month)
  {
    Request("/v2/solat/" + zone, AttachedQuery(QueryItems(year, month)))
  }

  /** The monthly request at coordinates, which arrive already rendered as text: `/v2/solat/gps/<latitude>/<longitude>`. */
  function GpsRequest(latitude: string, longitude: string, year: Option<int>, month: Option<int>): (request: Request)
    ensures request.endpoint == "/v2/solat/gps/" + latitude + "/" + longitude
    ensures request.queryItems.None? <==> year.None? && month.None?
    ensures request.queryItems.Some? ==> request.queryItems.value == QueryItems(year, month)
  {
    Request("/v2/solat/gps/" + latitude + "/" + longitude, AttachedQuery(QueryItems(year, month)))
  }

  /** `getPrayerTimesByZone`: a zone's month, for the given year and month or the service's default. */
  method GetPrayerTimesByZone(zone: string, year: Option<int>, month: Option<int>, fetch: Fetch)
    returns (r: Result<SolatV2, ApiException>)
    ensures r == SolatOutcome(Classify(fetch(ZoneRequest(zone, year, month))))
  {
    var queryItems := BuildQueryItems(year, month);
    var response := Classify(fetch(Request("/v2/solat/" + zone, AttachedQuery(queryItems))));
    r := SolatOutcome(response);
  }

  /** `getPrayerTimesByGps`: the month of the zone holding the coordinates. */
  method GetPrayerTimesByGps(latitude: string, longitude: string, year: Option<int>, month: Option<int>, fetch: Fetch)
    returns (r: Result<SolatV2, ApiException>)
    ensures r == SolatOutcome(Classify(fetch(GpsRequest(latitude, longitude, year, month))))
  {
    var queryItems := BuildQueryItems(year, month);
    var endpoint := "/v2/solat/gps/" + latitude + "/" + longitude;
    var response := Classify(fetch(Request(endpoint, AttachedQuery(queryItems))));
    r := SolatOutcome(response);
  }

  // ------------------------------------------------------------- date lookup

  /** A Gregorian calendar date, as the calendar's year, month and day components. */
  datatype CalendarDate = CalendarDate(year: int, month: int, day: int)

  /** A four-digit year and a two-digit month and day: the range in which the lookup string reads back. */
  predicate InFormatRange(date: CalendarDate) {
    0 <= date.year <= 9999 && 0 <= date.month <= 99 && 0 <= date.day <= 99
  }

  /**
   * `formatDate`: `%04d-%02d-%02d`. In range it is `YYYY-MM-DD`: ten
   * characters with dashes at positions 4 and 7 (FormatDateReadsBack says
   * what lies between them).
   */
  function FormatDate(date: CalendarDate): (s: string)
    ensures InFormatRange(date) ==> |s| == 10 && s[4] == '-' && s[7] == '-'
  {
    PaddedShape(date);
    DashedParts(Padded(date.year, 4), Padded(date.month, 2), Padded(date.day, 2));
    Padded(date.year, 4) + "-" + Padded(date.month, 2) + "-" + Padded(date.day, 2)
  }

  /** In range, the three runs between the dashes are digits that parse back as the date's year, month and day. */
  lemma FormatDateReadsBack(date: CalendarDate)
    requires InFormatRange(date)
    ensures var s := FormatDate(date);
            && AllDigits(s[..4]) && AllDigits(s[5..7]) && AllDigits(s[8..])
            && ParseInt(s[..4]) == Some(date.year)
            && ParseInt(s[5..7]) == Some(date.month)
            && ParseInt(s[8..]) == Some(date.day)
  {
    PaddedParts(date);
    DashedParts(Padded(date.year, 4), Padded(date.month, 2), Padded(date.day, 2));
  }

  /** In range, each padded part has exactly its width. */
  lemma PaddedShape(date: CalendarDate)
    ensures InFormatRange(date) ==>
              |Padded(date.year, 4)| == 4 && |Padded(date.month, 2)| == 2 && |Padded(date.day, 2)| == 2
  {
    PaddedParts(date);
  }

  /** In range, each padded part has exactly its width and parses back as its number. */
  lemma PaddedParts(date: CalendarDate)
    ensures InFormatRange(date) ==>
              && |Padded(date.year, 4)| == 4 && AllDigits(Padded(date.year, 4))
              && ParseInt(Padded(date.year, 4)) == Some(date.year)
              && |Padded(date.month, 2)| == 2 && AllDigits(Padded(date.month, 2))
              && ParseInt(Padded(date.month, 2)) == Some(date.month)
              && |Padded(date.day, 2)| == 2 && AllDigits(Padded(date.day, 2))
              && ParseInt(Padded(date.day, 2)) == Some(date.day)
  {
    if InFormatRange(date) {
      assert Pow10(4) == 10000 && Pow10(2) == 100 by {
        assert Pow10(1) == 10;
        assert Pow10(2) == 100;
        assert Pow10(3) == 1000;
      }
      PaddedExact(date.year, 4);
      PaddedExact(date.month, 2);
      PaddedExact(date.day, 2);
    }
  }

  /** The three parts of a dashed date sit at fixed positions. */
  lemma DashedParts(y: string, m: string, d: string)
    ensures |y| == 4 && |m| == 2 && |d| == 2 ==>
              var s := y + "-" + m + "-" + d;
              |s| == 10 && s[..4] == y && s[5..7] == m && s[8..] == d && s[4] == '-' && s[7] == '-'
  {
    if |y| == 4 && |m| == 2 && |d| == 2 {
      var s := y + "-" + m + "-" + d;
      assert s[..4] == y;
      assert s[5..7] == m;
      assert s[8..] == d;
    }
  }

  /** Distinct calendar dates in range give distinct lookup strings. */
  lemma FormatDateInjective(a: CalendarDate, b: CalendarDate)
    requires InFormatRange(a) && InFormatRange(b)
    requires FormatDate(a) == FormatDate(b)
    ensures a == b
  {
    FormatDateReadsBack(a);
    FormatDateReadsBack(b);
  }

  /** `first(where:)`: the position of the first element satisfying `p`. */
  function FirstWhere<T>(s: seq<T>, p: T -> bool): (r: Option<nat>)
    ensures r.Some? ==> r.value < |s| && p(s[r.value]) && forall j :: 0 <= j < r.value ==> !p(s[j])
    ensures r.None? ==> forall j :: 0 <= j < |s| ==> !p(s[j])
    decreases |s|
  {
    if s == [] then None
    else if p(s[0]) then Some(0)
    else
      match FirstWhere(s[1..], p)
      case None => None
      case Some(k) => Some(k + 1)
  }

  /** The fallback lookup: the first day whose `day` member equals `day`, if any. */
  function FindByDay(days: seq<PrayerTime>, day: int): (r: Option<PrayerTime>)
    ensures r.Some? <==> exists k :: 0 <= k < |days| && days[k].day == day
    ensures r.Some? ==> exists k :: 0 <= k < |days| && r == Some(days[k]) && days[k].day == day
                                    && forall j :: 0 <= j < k ==> days[j].day != day
  {
    var byDay := (p: PrayerTime) => p.day == day;
    match FirstWhere(days, byDay)
    case Some(k) =>
      FirstMatch(days, byDay, k);
      Some(days[k])
    case None =>
      NoMatch(days, byDay);
      None
  }

  /**
   * The day of a month matching a date, given the date's lookup string and
   * its day of the month: the first day whose `date` is that string;
   * failing that, the first whose `day` member equals the day of the month;
   * failing that, none.
   */
  function FindDay(days: seq<PrayerTime>, dateString: string, day: int): (r: Option<PrayerTime>)
    ensures r.Some? <==> exists k :: 0 <= k < |days| && (days[k].date == Some(dateString) || days[k].day == day)
    ensures (exists k :: 0 <= k < |days| && days[k].date == Some(dateString)) ==>
              exists k :: 0 <= k < |days| && r == Some(days[k]) && days[k].date == Some(dateString)
                          && forall j :: 0 <= j < k ==> days[j].date != Some(dateString)
    ensures (forall k :: 0 <= k < |days| ==> days[k].date != Some(dateString)) ==> r == FindByDay(days, day)
  {
    var byDate := (p: PrayerTime) => p.date == Some(dateString);
    match FirstWhere(days, byDate)
    case Some(k) =>
      FirstMatch(days, byDate, k);
      Some(days[k])
    case None =>
      NoMatch(days, byDate);
      FindByDay(days, day)
  }

  lemma FirstMatch<T>(s: seq<T>, p: T -> bool, k: nat)
    requires FirstWhere(s, p) == Some(k)
    ensures k < |s| && p(s[k]) && forall j :: 0 <= j < k ==> !p(s[j])
  {
  }

  lemma NoMatch<T>(s: seq<T>, p: T -> bool)
    requires FirstWhere(s, p).None?
    ensures forall j :: 0 <= j < |s| ==> !p(s[j])
  {
  }

  /** `getPrayerTimeByDate`: the date's month for the zone, then the matching day; no match is not an error. */
  method GetPrayerTimeByDate(zone: string, date: CalendarDate, fetch: Fetch)
    returns (r: Result<Option<PrayerTime>, ApiException>)
    ensures var monthly := SolatOutcome(Classify(fetch(ZoneRequest(zone, Some(date.year), Some(date.month)))));
            && (monthly.Failure? ==> r == Failure(monthly.error))
            && (monthly.Success? ==> r == Success(FindDay(monthly.value.prayerTime, FormatDate(date), date.day)))
  {
    var monthly := GetPrayerTimesByZone(zone, Some(date.year), Some(date.month), fetch);
    if monthly.Failure? {
      r := Failure(monthly.error);
    } else {
      var dateString := FormatDate(date);
      r := Success(FindDay(monthly.value.prayerTime, dateString, date.day));
    }
  }

  /** `getPrayerTimeByDateGps`: as by zone, for the zone holding the coordinates. */
  method GetPrayerTimeByDateGps(latitude: string, longitude: string, date: CalendarDate, fetch: Fetch)
    returns (r: Result<Option<PrayerTime>, ApiException>)
    ensures var monthly := SolatOutcome(Classify(fetch(GpsRequest(latitude, longitude, Some(date.year), Some(date.month)))));
            && (monthly.Failure? ==> r == Failure(monthly.error))
            && (monthly.Success? ==> r == Success(FindDay(monthly.value.prayerTime, FormatDate(date), date.day)))
  {
    var monthly := GetPrayerTimesByGps(latitude, longitude, Some(date.year), Some(date.month), fetch);
    if monthly.Failure? {
      r := Failure(monthly.error);
    } else {
      var dateString := FormatDate(date);
      r := Success(FindDay(monthly.value.prayerTime, dateString, date.day));
    }
  }

  /** A date lookup asks for exactly the date's year and then its month. */
  lemma DateLookupRequestsItsMonth(zone: string, date: CalendarDate)
    ensures ZoneRequest(zone, Some(date.year), Some(date.month)).queryItems
            == Some([QueryItem("year", DecimalString(date.year)), QueryItem("month", DecimalString(date.month))])
  {
    assert QueryItems(Some(date.year), Some(date.month))
        == [QueryItem("year", DecimalString(date.year))] + [QueryItem("month", DecimalString(date.month))]
        == [QueryItem("year", DecimalString(date.year)), QueryItem("month", DecimalString(date.month))];
  }
}
