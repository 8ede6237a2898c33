/**
 * The API gateway of `src/lib/api.ts`: header composition, request
 * construction for every endpoint, error translation, and `fetchApi` itself,
 * which reads the stored token, sends the request and branches on the reply.
 * The network is a parameter: the reply the server gives to the request.
 */
module Api {
  import opened Common
  import opened Objects
  import Decimal
  import Session

  // ---------------------------------------------------------------------------
  // Response shapes

  /** Pagination metadata of a list reply. */
  datatype Meta = Meta(total: int, page: int, limit: int, totalPages: int)

  /** The parsed JSON envelope `{ success, message, data, meta? }`; `message` may be missing. */
  datatype Envelope<T> = Envelope(success: bool, message: Option<string>, data: T, meta: Option<Meta>)

  /** What `fetch` resolves to: `response.ok`, `response.status` and the parsed body. */
  datatype Response<T> = Response(ok: bool, status: int, body: Envelope<T>)

  /** One attendance record as the server sends it. */
  datatype AttendanceRecord = AttendanceRecord(id: int, date: string, checkIn: Option<string>, checkOut: Option<string>)

  /** The reply of `GET /staff/attendance/today`. */
  datatype TodayData = TodayData(attendance: Option<AttendanceRecord>, canCheckIn: bool, canCheckOut: bool)

  /** The reply of `GET /staff/profile` (`phone` and `photo_url` may be missing in practice). */
  datatype ProfileData = ProfileData(name: string, email: string, position: string, phone: Option<string>, photoUrl: Option<string>)

  // ---------------------------------------------------------------------------
  // ApiError and error translation

  const ApiErrorName := "ApiError"
  const DefaultErrorMessage := "An error occurred"

  /** `new ApiError(status, message)`: an `Error` named `ApiError` that carries the status. */
  function ApiError(status: int, message: string): (e: Error)
    ensures e.name == ApiErrorName && e.status == Some(status) && e.message == message
  {
    Error(ApiErrorName, message, Some(status))
  }

  /**
   * The decision `fetchApi` takes once the body is parsed: an ok reply yields
   * its body unchanged; any other reply fails with an `ApiError` carrying the
   * reply's status and the server's message, or the default message when the
   * server gave none or an empty one.
   */
  function Translate<T>(response: Response<T>): (r: Result<Envelope<T>, Error>)
    ensures response.ok <==> r.Ok?
    ensures r.Ok? ==> r.value == response.body
    ensures r.Err? ==> r.error.name == ApiErrorName && r.error.status == Some(response.status)
    ensures r.Err? && TruthyOpt(response.body.message) ==> r.error.message == response.body.message.value
    ensures r.Err? && !TruthyOpt(response.body.message) ==> r.error.message == DefaultErrorMessage
    ensures r.Err? ==> Truthy(r.error.message)
  {
    if !response.ok then Err(ApiError(response.status, OptOrElse(response.body.message, DefaultErrorMessage)))
    else Ok(response.body)
  }

  // ---------------------------------------------------------------------------
  // Headers

  const ContentType := "Content-Type"
  const JsonMediaType := "application/json"
  const Authorization := "Authorization"

  /** The defaults before the caller's headers: JSON first, then the bearer token if it is truthy. */
  function DefaultHeaders(token: Option<string>): Obj {
    [(ContentType, JsonMediaType)] + if TruthyOpt(token) then [(Authorization, "Bearer " + token.value)] else []
  }

  /**
   * `{ 'Content-Type': ..., ...(token && { Authorization }), ...options.headers }`.
   * `Content-Type` is always the first key; `Authorization` appears as
   * `Bearer <token>` exactly when the token is truthy, unless the caller
   * supplies its own; a caller header overrides the default of the same name,
   * and every other header is the caller's.
   */
  function BuildHeaders(token: Option<string>, callerHeaders: Obj): (h: Obj)
    requires DistinctKeys(callerHeaders)
    ensures DistinctKeys(h)
    ensures |Keys(h)| > 0 && Keys(h)[0] == ContentType
    ensures Get(h, ContentType) ==
      if Get(callerHeaders, ContentType).Some? then Get(callerHeaders, ContentType) else Some(JsonMediaType)
    ensures Get(h, Authorization) ==
      (if Get(callerHeaders, Authorization).Some? then Get(callerHeaders, Authorization)
       else if TruthyOpt(token) then Some("Bearer " + token.value)
       else None)
    ensures forall k :: k != ContentType && k != Authorization ==> Get(h, k) == Get(callerHeaders, k)
  {
    var defaults := DefaultHeaders(token);
    var auth := if TruthyOpt(token) then [(Authorization, "Bearer " + token.value)] else [];
    assert defaults == [(ContentType, JsonMediaType)] + auth;
    assert DistinctKeys(auth) && forall k :: k != Authorization ==> Get(auth, k).None? by {
      if TruthyOpt(token) {
        var a := (Authorization, "Bearer " + token.value);
        assert auth == [a] + [];
        DistinctCons(a, []);
        forall k ensures Get(auth, k) == if k == Authorization then Some(a.1) else None {
          GetCons(a, [], k);
        }
      }
    }
    KeysCons((ContentType, JsonMediaType), auth);
    DistinctCons((ContentType, JsonMediaType), auth);
    forall k ensures Get(defaults, k) == if k == ContentType then Some(JsonMediaType) else Get(auth, k) {
      GetCons((ContentType, JsonMediaType), auth, k);
    }
    Spread(defaults, callerHeaders)
  }

  // ---------------------------------------------------------------------------
  // Endpoints

  /** The fields a profile update may carry; `None` fields are left out of the JSON body. */
  datatype ProfileUpdate = ProfileUpdate(phone: Option<string>, password: Option<string>, photoUrl: Option<string>)

  predicate IsEmptyUpdate(u: ProfileUpdate) {
    u.phone.None? && u.password.None? && u.photoUrl.None?
  }

  /** `rest` with `name: value` in front when the value is present. */
  function With(name: string, value: Option<string>, rest: Obj): (r: Obj)
    ensures forall k :: Get(r, k) == if k == name && value.Some? then value else Get(rest, k)
    ensures Keys(rest) <= Keys(r) || Keys(r) == [name] + Keys(rest)
    ensures DistinctKeys(rest) && Get(rest, name).None? ==> DistinctKeys(r)
    ensures r == [] <==> rest == [] && value.None?
  {
    if value.Some? then
      var r := [(name, value.value)] + rest;
      assert r[1..] == rest;
      r
    else rest
  }

  /**
   * `JSON.stringify(updates)` as an object: the present fields, in the order
   * they are set. It carries exactly the fields that are set, each once, and
   * nothing when nothing is set.
   */
  function UpdateBody(u: ProfileUpdate): (b: Obj)
    ensures DistinctKeys(b)
    ensures Get(b, "phone") == u.phone
    ensures Get(b, "password") == u.password
    ensures Get(b, "photo_url") == u.photoUrl
    ensures forall k :: k != "phone" && k != "password" && k != "photo_url" ==> Get(b, k).None?
    ensures b == [] <==> IsEmptyUpdate(u)
  {
    With("phone", u.phone, With("password", u.password, With("photo_url", u.photoUrl, [])))
  }

  /** The query parameters of a summary request. */
  datatype SummaryParams = SummaryParams(page: int, limit: int, startDate: string, endDate: string)

  const SummaryPath := "/staff/attendance/summary"

  /**
   * `new URLSearchParams({ page, limit, start_date, end_date })`, in that
   * order (encoding left out): the two numbers as numerals that read back to
   * them, the two dates as given.
   */
  function SummaryQuery(p: SummaryParams): (q: Obj)
    ensures |q| == 4
    ensures q[0].0 == "page" && q[1].0 == "limit" && q[2].0 == "start_date" && q[3].0 == "end_date"
    ensures Decimal.ParseInt(q[0].1) == Some(p.page) && Decimal.ParseInt(q[1].1) == Some(p.limit)
    ensures q[2].1 == p.startDate && q[3].1 == p.endDate
  {
    Decimal.ParseIntToString(p.page);
    Decimal.ParseIntToString(p.limit);
    [("page", Decimal.IntToString(p.page)), ("limit", Decimal.IntToString(p.limit)),
     ("start_date", p.startDate), ("end_date", p.endDate)]
  }

  /** As an object, the query holds the four names once each, in order, and a reader recovers each parameter. */
  lemma SummaryQueryReadsBack(p: SummaryParams)
    ensures Keys(SummaryQuery(p)) == ["page", "limit", "start_date", "end_date"]
    ensures DistinctKeys(SummaryQuery(p))
    ensures Get(SummaryQuery(p), "page").Some? && Decimal.ParseInt(Get(SummaryQuery(p), "page").value) == Some(p.page)
    ensures Get(SummaryQuery(p), "limit").Some? && Decimal.ParseInt(Get(SummaryQuery(p), "limit").value) == Some(p.limit)
    ensures Get(SummaryQuery(p), "start_date") == Some(p.startDate)
    ensures Get(SummaryQuery(p), "end_date") == Some(p.endDate)
  {
    var q := SummaryQuery(p);
    var a, b, c, d := q[0], q[1], q[2], q[3];
    var t3: Obj := [d] + [];
    var t2: Obj := [c] + t3;
    var t1: Obj := [b] + t2;
    assert q == [a] + t1;
    KeysCons(d, []); KeysCons(c, t3); KeysCons(b, t2); KeysCons(a, t1);
    // no later entry repeats an earlier name
    GetCons(d, [], c.0);
    GetCons(c, t3, b.0); GetCons(d, [], b.0);
    GetCons(b, t2, a.0); GetCons(c, t3, a.0); GetCons(d, [], a.0);
    DistinctCons(d, []); DistinctCons(c, t3); DistinctCons(b, t2); DistinctCons(a, t1);
    // each name is found at its own entry
    GetCons(a, t1, "page");
    GetCons(a, t1, "limit"); GetCons(b, t2, "limit");
    GetCons(a, t1, "start_date"); GetCons(b, t2, "start_date"); GetCons(c, t3, "start_date");
    GetCons(a, t1, "end_date"); GetCons(b, t2, "end_date"); GetCons(c, t3, "end_date"); GetCons(d, [], "end_date");
  }

  /** Every call the client makes to the backend. */
  datatype Call =
    | Login(email: string, password: string)
    | GetProfile
    | UpdateProfile(update: ProfileUpdate)
    | GetToday
    | CheckIn
    | CheckOut
    | GetSummary(params: SummaryParams)

  /** The path, and the query string as a parameter list. */
  datatype Endpoint = Endpoint(path: string, query: Obj)

  /** The `options` argument of `fetchApi`: method (absent means GET), caller headers, JSON body. */
  datatype RequestOptions = RequestOptions(httpMethod: Option<string>, headers: Obj, body: Option<Obj>)

  const ProfilePath := "/staff/profile"

  /**
   * Where each call goes: the profile read and the profile update share one
   * path, and only the summary carries a query, built from its parameters.
   */
  function EndpointOf(c: Call): (e: Endpoint)
    ensures e.path == ProfilePath <==> c.GetProfile? || c.UpdateProfile?
    ensures e.query != [] <==> c.GetSummary?
    ensures c.GetSummary? ==> e == Endpoint(SummaryPath, SummaryQuery(c.params))
  {
    match c
    case Login(_, _) => Endpoint("/auth/login", [])
    case GetProfile => Endpoint(ProfilePath, [])
    case UpdateProfile(_) => Endpoint(ProfilePath, [])
    case GetToday => Endpoint("/staff/attendance/today", [])
    case CheckIn => Endpoint("/staff/attendance/check-in", [])
    case CheckOut => Endpoint("/staff/attendance/check-out", [])
    case GetSummary(p) => Endpoint(SummaryPath, SummaryQuery(p))
  }

  /**
   * The options each call passes: no call adds headers of its own; only login
   * (email and password) and the update (its JSON body) carry a body.
   */
  function OptionsOf(c: Call): (o: RequestOptions)
    ensures o.headers == []
    ensures o.body.Some? <==> c.Login? || c.UpdateProfile?
    ensures c.Login? ==> o.body == Some([("email", c.email), ("password", c.password)])
    ensures c.UpdateProfile? ==> o.body == Some(UpdateBody(c.update))
  {
    match c
    case Login(e, pw) => RequestOptions(Some("POST"), [], Some([("email", e), ("password", pw)]))
    case UpdateProfile(u) => RequestOptions(Some("PATCH"), [], Some(UpdateBody(u)))
    case CheckIn => RequestOptions(Some("POST"), [], None)
    case CheckOut => RequestOptions(Some("POST"), [], None)
    case _ => RequestOptions(None, [], None)
  }

  /** The HTTP method `fetch` uses: GET when the options name none. */
  function MethodName(o: RequestOptions): string {
    if o.httpMethod.Some? then o.httpMethod.value else "GET"
  }

  /**
   * The method table: login and the two attendance commands are POSTs, the
   * profile update is a PATCH, and the profile, today and summary reads are GETs.
   */
  lemma EndpointTable(c: Call)
    ensures MethodName(OptionsOf(c)) == "POST" <==> c.Login? || c.CheckIn? || c.CheckOut?
    ensures MethodName(OptionsOf(c)) == "PATCH" <==> c.UpdateProfile?
    ensures MethodName(OptionsOf(c)) == "GET" <==> c.GetProfile? || c.GetToday? || c.GetSummary?
  {
  }

  // ---------------------------------------------------------------------------
  // fetchApi

  /** The request handed to `fetch`: `${API_BASE_URL}${endpoint}` with method, headers and body. */
  datatype Request = Request(baseUrl: string, endpoint: Endpoint, httpMethod: string, headers: Obj, body: Option<Obj>)

  /**
   * `fetchApi(endpoint, options)`: reads the stored token, composes the
   * headers, sends the request and translates the reply. `response` is the
   * server's reply to the request. The storage is only read.
   */
  method FetchApi<T>(storage: Session.LocalStorage, baseUrl: string, endpoint: Endpoint, options: RequestOptions,
                     response: Response<T>)
    returns (request: Request, result: Result<Envelope<T>, Error>)
    requires DistinctKeys(options.headers)
    ensures request == Request(baseUrl, endpoint, MethodName(options),
                               BuildHeaders(storage.accessToken, options.headers), options.body)
    ensures result == Translate(response)
  {
    var token := storage.accessToken;
    var headers := BuildHeaders(token, options.headers);
    request := Request(baseUrl, endpoint, MethodName(options), headers, options.body);
    if !response.ok {
      result := Err(ApiError(response.status, OptOrElse(response.body.message, DefaultErrorMessage)));
      return;
    }
    result := Ok(response.body);
  }

  /** `authApi.login`, `staffApi.*`, `attendanceApi.*`: one call, one `fetchApi`. */
  method Send<T>(storage: Session.LocalStorage, baseUrl: string, call: Call, response: Response<T>)
    returns (request: Request, result: Result<Envelope<T>, Error>)
    ensures request.endpoint == EndpointOf(call) && request.httpMethod == MethodName(OptionsOf(call))
    ensures request.body == OptionsOf(call).body
    ensures Get(request.headers, Authorization).Some? <==> TruthyOpt(storage.accessToken)
    ensures TruthyOpt(storage.accessToken) ==>
      Get(request.headers, Authorization) == Some("Bearer " + storage.accessToken.value)
    ensures Get(request.headers, ContentType) == Some(JsonMediaType)
    ensures result == Translate(response)
  {
    request, result := FetchApi(storage, baseUrl, EndpointOf(call), OptionsOf(call), response);
  }
}
