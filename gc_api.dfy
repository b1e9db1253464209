/**
 * The request/response pipeline of `GCApi`: configuration parameters, the
 * URL escape, request assembly, the encoder's error tagging, the HTTP
 * status classification, `parseResponse`, and the object that owns the
 * in-memory authorization state and its single persisted slot.
 */
module GCApi {
  import opened Wrappers
  import opened Text

  newtype byte = x: int | 0 <= x < 256
  type Data = seq<byte>

  /** An error object from a foreign library, known only by its description. */
  datatype ErrorReason = ErrorReason(description: string)

  /** The decoded body of an error response that no specific case covers. */
  datatype UnmapperError = UnmapperError(statusCode: Option<int>, statusMessage: Option<string>, errorMessage: Option<string>)

  datatype GCError =
    | BadURL
    | MissingToken
    | NotFound
    | UserOptedOut
    | TooManyRequests(nextCall: int)
    | NoResponse
    | ConfigurationMissing
    | UnmappedHttpError(errorObject: UnmapperError)
    | NetworkError(reason: ErrorReason)
    | ParsingError(reason: ErrorReason)
    | DecodeError(reason: ErrorReason)

  datatype ApiType = Staging | Production

  datatype ApiParams = ApiParams(url: string, redirectUrl: string, clientId: string, clientSecret: string,
                                 authorizeEndpoint: string, tokenEndpoint: string)

  datatype HTTPMethod = Get | Post | Put | Delete | Patch {
    function RawValue(): string {
      match this
      case Get => "GET"
      case Post => "POST"
      case Put => "PUT"
      case Delete => "DELETE"
      case Patch => "PATCH"
    }
  }

  /** The dynamic type of a header value as `allHeaderFields` hands it over. */
  datatype HeaderValue = IntHeader(i: int) | TextHeader(s: string)

  datatype HttpResponse = HttpResponse(statusCode: int, headers: map<string, HeaderValue>)

  /** What a successful call delivers: the 204 placeholder, a decoded value, or the raw body. */
  datatype Payload<T> = TruePlaceholder | Decoded(value: T) | RawData(data: Data)

  type Outcome<T> = Result<Payload<T>, GCError>

  const VersionString: string := "/v1.0"
  const AuthStateKey: string := "authState"
  const RateLimitHeader: string := "x-rate-limit-reset"
  const DefaultRetryAfter: int := 60

  // ---------------------------------------------------------------------
  // Configuration

  function PlistValue(plist: map<string, string>, key: string): string {
    if key in plist then plist[key] else ""
  }

  /**
   * `apiParamsForType`: fixed hosts and endpoints per environment; the
   * client identifiers come from the key plist, each defaulting to "".
   * Without a readable plist every field is "".
   */
  function ApiParamsForType(plist: Option<map<string, string>>, apiType: ApiType): (r: ApiParams)
    ensures plist.None? ==> r == ApiParams("", "", "", "", "", "")
    ensures plist.Some? ==> r.redirectUrl == PlistValue(plist.value, "redirect_uri")
    ensures plist.Some? && apiType == Staging ==>
              r.url == "staging.api.groundspeak.com"
              && r.clientId == PlistValue(plist.value, "client_id_staging")
              && r.clientSecret == PlistValue(plist.value, "client_secret_staging")
              && r.authorizeEndpoint == "https://staging.geocaching.com/oauth/authorize.aspx"
              && r.tokenEndpoint == "https://oauth-staging.geocaching.com/token"
    ensures plist.Some? && apiType == Production ==>
              r.url == "api.groundspeak.com"
              && r.clientId == PlistValue(plist.value, "client_id")
              && r.clientSecret == PlistValue(plist.value, "client_secret")
              && r.authorizeEndpoint == "https://www.geocaching.com/oauth/authorize.aspx"
              && r.tokenEndpoint == "https://oauth.geocaching.com/token"
  {
    match plist
    case None => ApiParams("", "", "", "", "", "")
    case Some(dict) =>
      (match apiType
      case Staging =>
        ApiParams("staging.api.groundspeak.com", PlistValue(dict, "redirect_uri"),
                  PlistValue(dict, "client_id_staging"), PlistValue(dict, "client_secret_staging"),
                  "https://staging.geocaching.com/oauth/authorize.aspx", "https://oauth-staging.geocaching.com/token")
      case Production =>
        ApiParams("api.groundspeak.com", PlistValue(dict, "redirect_uri"),
                  PlistValue(dict, "client_id"), PlistValue(dict, "client_secret"),
                  "https://www.geocaching.com/oauth/authorize.aspx", "https://oauth.geocaching.com/token"))
  }

  // ---------------------------------------------------------------------
  // URL and request

  /**
   * `createUrl`: the rendered URL components (or "" when they render to
   * nothing) with every `+` rewritten to `%2B`.
   */
  function CreateUrl(componentsString: Option<string>): (r: string)
    ensures '+' !in r
  {
    ReplaceCharRemoves(componentsString.GetOr(""), '+', "%2B");
    ReplaceAll(componentsString.GetOr(""), "+", "%2B")
  }

  /** Escaping twice is escaping once. */
  lemma CreateUrlIdempotent(componentsString: Option<string>)
    ensures CreateUrl(Some(CreateUrl(componentsString))) == CreateUrl(componentsString)
  {
    ReplaceCharAbsent(CreateUrl(componentsString), '+', "%2B");
  }

  /** A URL without `+` passes through unchanged. */
  lemma CreateUrlKeepsPlusFree(s: string)
    requires '+' !in s
    ensures CreateUrl(Some(s)) == s
  {
    ReplaceCharAbsent(s, '+', "%2B");
  }

  /** A prepared `URLRequest`. */
  datatype Request = Request(url: string, httpMethod: string, body: Option<Data>, headers: map<string, string>)

  /** The fixed headers, with the bearer token. */
  function RequestHeaders(accessToken: string): (h: map<string, string>)
    ensures h.Keys == {"Authorization", "Content-Type", "Accept", "Content-Encoding"}
    ensures h["Authorization"] == "bearer " + accessToken
  {
    map["Authorization" := "bearer " + accessToken,
        "Content-Type" := " application/json",
        "Accept" := "application/json",
        "Content-Encoding" := "deflate"]
  }

  /**
   * `encode`: the payload serialised by the JSON encoder (dates in
   * `FormatDate`'s format); a failure is reported as `DecodeError`.
   */
  function Encode<T>(payload: T, serialize: T -> Result<Data, ErrorReason>): (r: Result<Data, GCError>)
    ensures r.Success? <==> serialize(payload).Success?
    ensures r.Success? ==> r.value == serialize(payload).value
    ensures r.Failure? ==> r.error == DecodeError(serialize(payload).error)
  {
    match serialize(payload)
    case Success(data) => Success(data)
    case Failure(e) => Failure(DecodeError(e))
  }

  /**
   * The body of `performAction(freshTokens:)` up to the data task: without
   * an access token the call fails with `MissingToken`; a payload that is
   * not a string is encoded into the body and its failure is delivered;
   * otherwise the request carries the fixed headers and the bearer token.
   */
  function BuildRequest(url: string, httpMethod: HTTPMethod, accessToken: Option<string>,
                        payloadIsString: bool, encoded: Result<Data, GCError>): (r: Result<Request, GCError>)
    ensures accessToken.None? ==> r == Failure(MissingToken)
    ensures r.Success? <==> accessToken.Some? && (payloadIsString || encoded.Success?)
    ensures accessToken.Some? && !payloadIsString && encoded.Failure? ==> r == Failure(encoded.error)
    ensures r.Success? ==>
              r.value.url == url && r.value.httpMethod == httpMethod.RawValue()
              && r.value.headers == RequestHeaders(accessToken.value)
              && (r.value.body.Some? <==> !payloadIsString)
              && (!payloadIsString ==> r.value.body == Some(encoded.value))
  {
    match accessToken
    case None => Failure(MissingToken)
    case Some(token) =>
      if payloadIsString then
        Success(Request(url, httpMethod.RawValue(), None, RequestHeaders(token)))
      else
        match encoded
        case Failure(e) => Failure(e)
        case Success(data) => Success(Request(url, httpMethod.RawValue(), Some(data), RequestHeaders(token)))
  }

  // ---------------------------------------------------------------------
  // Responses

  /**
   * `parseResponse`: with a body, the raw bytes when the caller asked for
   * `Data`, else the decoded value or `ParsingError`; without a body, the
   * transport error if there is one; with neither, nothing is delivered.
   */
  function ParseResponse<T>(data: Option<Data>, networkError: Option<ErrorReason>, wantsRawData: bool,
                            decode: Data -> Result<T, ErrorReason>): (r: Option<Outcome<T>>)
    ensures r.None? <==> data.None? && networkError.None?
    ensures data.Some? && wantsRawData ==> r == Some(Success(RawData(data.value)))
    ensures data.Some? && !wantsRawData ==>
              r == Some(if decode(data.value).Success? then Success(Decoded(decode(data.value).value))
                        else Failure(ParsingError(decode(data.value).error)))
    ensures data.None? && networkError.Some? ==> r == Some(Failure(NetworkError(networkError.value)))
  {
    match data
    case Some(bytes) =>
      if wantsRawData then Some(Success(RawData(bytes)))
      else
        (match decode(bytes)
         case Success(v) => Some(Success(Decoded(v)))
         case Failure(e) => Some(Failure(ParsingError(e))))
    case None =>
      match networkError
      case Some(e) => Some(Failure(NetworkError(e)))
      case None => None
  }

  /** The body substituted when an unmapped error response cannot be decoded. */
  const UnknownError: UnmapperError := UnmapperError(Some(999), Some("Unknown error"), Some("Please check the console"))

  /**
   * The retry hint of a 429 response exactly as the source reads it: the
   * `x-rate-limit-reset` value only if it is an `Int`, else 60.
   */
  function RetryAfterAsWritten(headers: map<string, HeaderValue>): (r: int)
    ensures RateLimitHeader in headers && headers[RateLimitHeader].IntHeader? ==> r == headers[RateLimitHeader].i
    ensures (RateLimitHeader !in headers || headers[RateLimitHeader].TextHeader?) ==> r == DefaultRetryAfter
  {
    if RateLimitHeader in headers && headers[RateLimitHeader].IntHeader? then headers[RateLimitHeader].i
    else DefaultRetryAfter
  }

  /**
   * The retry hint as intended: the header's integer value, also when it
   * arrives as decimal text (HTTP header values are text); 60 when the
   * header is absent or does not parse.
   */
  function RetryAfter(headers: map<string, HeaderValue>): (r: int)
    ensures RateLimitHeader !in headers ==> r == DefaultRetryAfter
    ensures RateLimitHeader in headers && headers[RateLimitHeader].IntHeader? ==> r == headers[RateLimitHeader].i
    ensures RateLimitHeader in headers && headers[RateLimitHeader].TextHeader? ==>
              r == ParseInt(headers[RateLimitHeader].s).GetOr(DefaultRetryAfter)
  {
    if RateLimitHeader !in headers then DefaultRetryAfter
    else
      match headers[RateLimitHeader]
      case IntHeader(i) => i
      case TextHeader(s) => ParseInt(s).GetOr(DefaultRetryAfter)
  }

  /** A response whose rate-limit header carries the text "120". */
  const TextRateLimit: map<string, HeaderValue> := map[RateLimitHeader := TextHeader("120")]

  /** As written, a textual `x-rate-limit-reset: 120` is ignored and the hint is 60. */
  lemma RetryAfterIgnoresTextHeader()
    ensures RetryAfterAsWritten(TextRateLimit) == 60
    ensures RetryAfter(TextRateLimit) == 120
  {
    assert IntToString(120) == "120" by {
      assert NatToString(1) == "1";
      assert NatToString(12) == "12";
    }
    IntToStringParses(120);
  }

  /** The intended reading returns any 64-bit value written as text in the header. */
  lemma RetryAfterReadsText(n: int)
    requires IntMin <= n <= IntMax
    ensures RetryAfter(map[RateLimitHeader := TextHeader(IntToString(n))]) == n
  {
    IntToStringParses(n);
  }

  function IsSuccessStatus(status: int): bool {
    200 <= status <= 299
  }

  /** A status that none of the specific cases claims. */
  predicate IsUnmappedStatus(status: int) {
    !IsSuccessStatus(status) && status != 401 && status != 403 && status != 404 && status != 429
  }

  /**
   * The completion handler of the data task, with the reading of the retry
   * hint given. 204 is tested before the 2xx range, so it never reaches
   * decoding; 401, 403, 404 and 429 map to their own errors; any other
   * status is an unmapped error carrying the decoded body or the
   * substitute; a missing or non-HTTP response is `NoResponse`.
   */
  function HandleResponseWith<T>(readRetry: map<string, HeaderValue> -> int, response: Option<HttpResponse>,
                                 data: Option<Data>, networkError: Option<ErrorReason>, wantsRawData: bool,
                                 decode: Data -> Result<T, ErrorReason>,
                                 decodeUnmapped: Data -> Option<UnmapperError>): (r: Option<Outcome<T>>)
    ensures r == Some(Failure(NoResponse)) <==> response.None?
    ensures r == Some(Success(TruePlaceholder)) <==> response.Some? && response.value.statusCode == 204
    ensures r == Some(Failure(MissingToken)) <==> response.Some? && response.value.statusCode == 401
    ensures r == Some(Failure(UserOptedOut)) <==> response.Some? && response.value.statusCode == 403
    ensures r == Some(Failure(NotFound)) <==> response.Some? && response.value.statusCode == 404
    ensures (r.Some? && r.value.Failure? && r.value.error.TooManyRequests?) <==>
              response.Some? && response.value.statusCode == 429
    ensures response.Some? && response.value.statusCode == 429 ==>
              r == Some(Failure(TooManyRequests(readRetry(response.value.headers))))
    ensures (r.Some? && r.value.Failure? && r.value.error.UnmappedHttpError?) <==>
              response.Some? && IsUnmappedStatus(response.value.statusCode)
    ensures response.Some? && IsUnmappedStatus(response.value.statusCode) ==>
              r == Some(Failure(UnmappedHttpError(
                     if data.Some? && decodeUnmapped(data.value).Some? then decodeUnmapped(data.value).value
                     else UnknownError)))
    ensures response.Some? && response.value.statusCode != 204 && IsSuccessStatus(response.value.statusCode) ==>
              r == ParseResponse(data, networkError, wantsRawData, decode)
    ensures r.None? <==> response.Some? && response.value.statusCode != 204
                         && IsSuccessStatus(response.value.statusCode) && data.None? && networkError.None?
  {
    match response
    case None => Some(Failure(NoResponse))
    case Some(resp) =>
      if resp.statusCode == 204 then Some(Success(TruePlaceholder))
      else if IsSuccessStatus(resp.statusCode) then ParseResponse(data, networkError, wantsRawData, decode)
      else if resp.statusCode == 401 then Some(Failure(MissingToken))
      else if resp.statusCode == 403 then Some(Failure(UserOptedOut))
      else if resp.statusCode == 404 then Some(Failure(NotFound))
      else if resp.statusCode == 429 then Some(Failure(TooManyRequests(readRetry(resp.headers))))
      else
        var unmapped :=
          if data.Some? && decodeUnmapped(data.value).Some? then decodeUnmapped(data.value).value else UnknownError;
        Some(Failure(UnmappedHttpError(unmapped)))
  }

  /** The status classification with the intended retry hint, read also from header text. */
  function HandleResponseCorrected<T>(response: Option<HttpResponse>, data: Option<Data>,
                                      networkError: Option<ErrorReason>, wantsRawData: bool,
                                      decode: Data -> Result<T, ErrorReason>,
                                      decodeUnmapped: Data -> Option<UnmapperError>): (r: Option<Outcome<T>>)
    ensures response.Some? && response.value.statusCode == 429 ==>
              r == Some(Failure(TooManyRequests(RetryAfter(response.value.headers))))
  {
    HandleResponseWith(RetryAfter, response, data, networkError, wantsRawData, decode, decodeUnmapped)
  }

  /**
   * The completion handler as written: the retry hint of a 429 is the
   * header only when it is an `Int`, so an absent or textual header gives
   * 60. Every other status is answered as the corrected handler answers it.
   */
  function HandleResponse<T>(response: Option<HttpResponse>, data: Option<Data>, networkError: Option<ErrorReason>,
                             wantsRawData: bool, decode: Data -> Result<T, ErrorReason>,
                             decodeUnmapped: Data -> Option<UnmapperError>): (r: Option<Outcome<T>>)
    ensures response.Some? && response.value.statusCode == 429 ==>
              r == Some(Failure(TooManyRequests(RetryAfterAsWritten(response.value.headers))))
    ensures response.Some? && response.value.statusCode == 429
            && (RateLimitHeader !in response.value.headers || response.value.headers[RateLimitHeader].TextHeader?) ==>
              r == Some(Failure(TooManyRequests(DefaultRetryAfter)))
    ensures !(response.Some? && response.value.statusCode == 429) ==>
              r == HandleResponseCorrected(response, data, networkError, wantsRawData, decode, decodeUnmapped)
  {
    HandleResponseWith(RetryAfterAsWritten, response, data, networkError, wantsRawData, decode, decodeUnmapped)
  }

  /**
   * At the level of the whole handler: a 429 with the text header `120`
   * is answered `tooManyRequests(nextCall: 60)` as written, and 120 as
   * intended.
   */
  lemma TextRateLimitResponse<T>(data: Option<Data>, networkError: Option<ErrorReason>, wantsRawData: bool,
                                 decode: Data -> Result<T, ErrorReason>,
                                 decodeUnmapped: Data -> Option<UnmapperError>)
    ensures HandleResponse(Some(HttpResponse(429, TextRateLimit)), data, networkError, wantsRawData, decode,
                           decodeUnmapped) == Some(Failure(TooManyRequests(60)))
    ensures HandleResponseCorrected(Some(HttpResponse(429, TextRateLimit)), data, networkError, wantsRawData, decode,
                                    decodeUnmapped) == Some(Failure(TooManyRequests(120)))
  {
    RetryAfterIgnoresTextHeader();
  }

  // ---------------------------------------------------------------------
  // Authorization state and its persisted slot

  /** The provider's authorization state, known only by identity and its `isAuthorized` flag. */
  datatype Session = Session(id: nat, isAuthorized: bool)

  /** What the settings store holds: an archive of a session, or data that unarchives to something else. */
  datatype Blob = ArchivedState(state: Session) | ForeignData

  /** The in-memory state together with the settings store. */
  datatype AuthSlots = AuthSlots(authState: Option<Session>, defaults: map<string, Blob>)

  /** The session that `loadState` would find in the store. */
  function Stored(defaults: map<string, Blob>): (r: Option<Session>)
    ensures r.Some? <==> AuthStateKey in defaults && defaults[AuthStateKey].ArchivedState?
  {
    if AuthStateKey in defaults && defaults[AuthStateKey].ArchivedState? then Some(defaults[AuthStateKey].state)
    else None
  }

  /** `saveState`: archive the state under the key, or clear the key when there is none. */
  function SaveStep(s: AuthSlots): (r: AuthSlots)
    ensures r.authState == s.authState
    ensures Stored(r.defaults) == s.authState
    ensures s.authState.None? ==> AuthStateKey !in r.defaults
    ensures r.defaults - {AuthStateKey} == s.defaults - {AuthStateKey}
  {
    var defaults := if s.authState.Some? then s.defaults[AuthStateKey := ArchivedState(s.authState.value)]
                    else s.defaults - {AuthStateKey};
    assert defaults - {AuthStateKey} == s.defaults - {AuthStateKey};
    s.(defaults := defaults)
  }

  /** `loadState`: adopt the stored session if there is one; report whether it did. */
  function LoadStep(s: AuthSlots): (r: (AuthSlots, bool))
    ensures r.1 <==> Stored(s.defaults).Some?
    ensures r.0.defaults == s.defaults
    ensures r.0.authState == if r.1 then Stored(s.defaults) else s.authState
  {
    match Stored(s.defaults)
    case None => (s, false)
    case Some(state) => (s.(authState := Some(state)), true)
  }

  /** `logout`: forget the state in memory and in the store. */
  function LogoutStep(s: AuthSlots): (r: AuthSlots)
    ensures r.authState.None? && Stored(r.defaults).None? && AuthStateKey !in r.defaults
    ensures r.defaults - {AuthStateKey} == s.defaults - {AuthStateKey}
  {
    AuthSlots(None, s.defaults - {AuthStateKey})
  }

  /** `isAuthorized`: load only when nothing is in memory, then read the flag. */
  function IsAuthorizedStep(s: AuthSlots): (r: (AuthSlots, bool))
    ensures s.authState.Some? ==> r.0 == s
    ensures s.authState.None? ==> r.0 == LoadStep(s).0
    ensures r.1 <==> r.0.authState.Some? && r.0.authState.value.isAuthorized
  {
    var t := if s.authState.None? then LoadStep(s).0 else s;
    (t, t.authState.Some? && t.authState.value.isAuthorized)
  }

  /** `didChange`: an authorized state replaces the current one and is saved; any other is ignored. */
  function DidChangeStep(s: AuthSlots, state: Session): (r: AuthSlots)
    ensures !state.isAuthorized ==> r == s
    ensures state.isAuthorized ==> r.authState == Some(state) && Stored(r.defaults) == Some(state)
    ensures r.defaults - {AuthStateKey} == s.defaults - {AuthStateKey}
  {
    if state.isAuthorized then SaveStep(s.(authState := Some(state))) else s
  }

  /** Logging out twice is logging out once, and nothing is authorized afterwards. */
  lemma LogoutIdempotent(s: AuthSlots)
    ensures LogoutStep(LogoutStep(s)) == LogoutStep(s)
    ensures IsAuthorizedStep(LogoutStep(s)) == (LogoutStep(s), false)
  {
  }

  /** What `saveState` writes, `loadState` reads back. */
  lemma SaveThenLoad(s: AuthSlots)
    requires s.authState.Some?
    ensures LoadStep(SaveStep(s)) == (SaveStep(s), true)
  {
  }

  /**
   * A state accepted by `didChange` survives a restart: a new process,
   * with nothing in memory, finds it in the store and is authorized.
   */
  lemma DidChangeSurvivesRestart(s: AuthSlots, state: Session)
    requires state.isAuthorized
    ensures IsAuthorizedStep(AuthSlots(None, DidChangeStep(s, state).defaults)).1
  {
  }

  /** The result of the provider's authorization flow, as its callback reports it. */
  datatype FlowResult = Granted(state: Session) | Denied(reason: ErrorReason)

  /** Where `getData` goes after its authorization check. */
  datatype CallStart = CallStart(launchedAuthorize: bool, next: Result<string, GCError>)

  class AuthStore {
    var authState: Option<Session>
    var defaults: map<string, Blob>

    function Slots(): AuthSlots
      reads this
    {
      AuthSlots(authState, defaults)
    }

    /** A process start: nothing in memory, the store as it was left. */
    constructor (persisted: map<string, Blob>)
      ensures Slots() == AuthSlots(None, persisted)
    {
      authState := None;
      defaults := persisted;
    }

    method SaveState()
      modifies this`defaults
      ensures Slots() == SaveStep(old(Slots()))
    {
      if authState.Some? {
        defaults := defaults[AuthStateKey := ArchivedState(authState.value)];
      } else {
        defaults := defaults - {AuthStateKey};
      }
    }

    method LoadState() returns (loaded: bool)
      modifies this`authState
      ensures (Slots(), loaded) == LoadStep(old(Slots()))
    {
      if AuthStateKey !in defaults {
        return false;
      }
      match defaults[AuthStateKey]
      case ArchivedState(state) =>
        authState := Some(state);
        loaded := true;
      case ForeignData =>
        loaded := false;
    }

    method Logout()
      modifies this
      ensures Slots() == LogoutStep(old(Slots()))
    {
      authState := None;
      defaults := defaults - {AuthStateKey};
    }

    method IsAuthorized() returns (authorized: bool)
      modifies this`authState
      ensures (Slots(), authorized) == IsAuthorizedStep(old(Slots()))
    {
      if authState.None? {
        var _ := LoadState();
      }
      authorized := authState.Some? && authState.value.isAuthorized;
    }

    method DidChange(state: Session)
      modifies this
      ensures Slots() == DidChangeStep(old(Slots()), state)
    {
      if state.isAuthorized {
        authState := Some(state);
        SaveState();
      }
    }

    /**
     * `authorize`, with the provider's flow run to completion. Without a
     * view controller nothing is delivered; without configuration the
     * result is `ConfigurationMissing`; when `loadState` finds a stored
     * session the flow is not started and nothing is delivered; otherwise
     * a granted state is kept and saved, and a denial clears the state.
     */
    method Authorize(hasPresenter: bool, configured: bool, flow: FlowResult)
        returns (delivered: Option<Result<bool, GCError>>)
      modifies this
      ensures !hasPresenter ==> delivered.None? && Slots() == old(Slots())
      ensures hasPresenter && !configured ==> delivered == Some(Failure(ConfigurationMissing)) && Slots() == old(Slots())
      ensures hasPresenter && configured && Stored(old(defaults)).Some? ==>
                delivered.None? && Slots() == LoadStep(old(Slots())).0
      ensures hasPresenter && configured && Stored(old(defaults)).None? && flow.Granted? ==>
                delivered == Some(Success(true)) && Slots() == SaveStep(AuthSlots(Some(flow.state), old(defaults)))
      ensures hasPresenter && configured && Stored(old(defaults)).None? && flow.Denied? ==>
                delivered == Some(Failure(NetworkError(flow.reason))) && Slots() == AuthSlots(None, old(defaults))
    {
      if !hasPresenter {
        return None;
      }
      if !configured {
        return Some(Failure(ConfigurationMissing));
      }
      var loaded := LoadState();
      if loaded {
        return None;
      }
      match flow
      case Granted(state) =>
        authState := Some(state);
        SaveState();
        delivered := Some(Success(true));
      case Denied(reason) =>
        authState := None;
        delivered := Some(Failure(NetworkError(reason)));
    }

    /**
     * The start of `getData`: load the stored state when none is in memory,
     * launch authorization when the state is not authorized, and then,
     * whether or not authorization was launched, build the URL (`BadURL`
     * when it does not parse).
     */
    method StartCall(componentsString: Option<string>, urlParses: bool) returns (start: CallStart)
      modifies this`authState
      ensures Slots() == IsAuthorizedStep(old(Slots())).0
      ensures start.launchedAuthorize <==> !IsAuthorizedStep(old(Slots())).1
      ensures start.next == if urlParses then Success(CreateUrl(componentsString)) else Failure(BadURL)
    {
      if authState.None? {
        var _ := LoadState();
      }
      var launched := !(authState.Some? && authState.value.isAuthorized);
      var next := if urlParses then Success(CreateUrl(componentsString)) else Failure(BadURL);
      start := CallStart(launched, next);
    }
  }
}
