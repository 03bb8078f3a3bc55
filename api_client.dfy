/** The front end's HTTP client (frontend/src/services/api.ts): one axios instance whose request
    interceptor adds the bearer token from `localStorage` and whose response interceptor wipes
    the access token and cached user on a 401; the endpoints the session code calls; and the
    deterministic builders of query strings and paths.

    The server is not modelled: each call takes the server's answer as a parameter `reply`. */
module ApiClient {
  import opened Wrappers
  import opened BrowserStorage

  /** An axios rejection; `status` is `error.response?.status`, absent for network errors and
      time-outs. */
  datatype HttpError = HttpError(status: Option<int>)

  /** What the server answered one request with. */
  datatype Reply<+T> = Ok(payload: T) | Err(error: HttpError)

  predicate IsUnauthorized(e: HttpError) {
    e.status == Some(401)
  }

  /** Whether the response interceptor sees this reply as a 401 and redirects. */
  predicate Redirects<T>(reply: Reply<T>) {
    reply.Err? && IsUnauthorized(reply.error)
  }

  const LoginPath: string := "/login"
  const AuthorizationHeader: string := "Authorization"
  const JsonHeaders: map<string, string> := map["Content-Type" := "application/json"]

  /** `LoginRequest`: what the login form posts. */
  datatype Credentials = Credentials(email: string, password: string)

  /** The endpoints the session code and the data pages call. */
  datatype Endpoint =
    | PostLogin(credentials: Credentials)
    | PostLogout
    | PostRefresh(refreshToken: Option<string>)
    | GetProfile
    | DataRequest(path: string)

  function PathOf(e: Endpoint): string {
    match e
    case PostLogin(_) => "/auth/login"
    case PostLogout => "/auth/logout"
    case PostRefresh(_) => "/auth/refresh"
    case GetProfile => "/auth/profile"
    case DataRequest(p) => p
  }

  /** The part of an axios request config the interceptor touches. */
  datatype RequestConfig = RequestConfig(url: string, headers: map<string, string>)

  /** One request as it left the client, headers included. */
  datatype Request = Request(endpoint: Endpoint, headers: map<string, string>)

  /** The headers a request carries once the request interceptor has run over the default
      headers, given what `localStorage` holds at that moment. */
  function HeadersFor(items: Items): (h: map<string, string>)
    ensures Truthy(Lookup(items, AccessTokenKey)) ==>
              h == JsonHeaders[AuthorizationHeader := "Bearer " + items[AccessTokenKey]]
    ensures !Truthy(Lookup(items, AccessTokenKey)) ==> h == JsonHeaders
  {
    var token := Lookup(items, AccessTokenKey);
    if token.Some? && token.value != "" then JsonHeaders[AuthorizationHeader := "Bearer " + token.value]
    else JsonHeaders
  }

  /** What `localStorage` holds after the response interceptor has seen rejection e. */
  function AfterRejection(items: Items, e: HttpError): (r: Items)
    ensures IsUnauthorized(e) ==> r == items - {AccessTokenKey, UserKey}
    ensures !IsUnauthorized(e) ==> r == items
    ensures Lookup(r, RefreshTokenKey) == Lookup(items, RefreshTokenKey)
    ensures r.Keys <= items.Keys
  {
    if IsUnauthorized(e) then items - {AccessTokenKey, UserKey} else items
  }

  /** What `localStorage` holds once a reply has gone through the response interceptor. */
  function AfterReply<T>(items: Items, reply: Reply<T>): (r: Items)
    ensures reply.Ok? ==> r == items
    ensures r - SessionKeys == items - SessionKeys
    ensures r.Keys <= items.Keys
  {
    match reply
    case Ok(_) => items
    case Err(e) => AfterRejection(items, e)
  }

  class Client {
    const storage: LocalStorage
    /** Every request sent, in order. */
    var requests: seq<Request>
    /** Every assignment to `window.location.href`, in order. */
    var locations: seq<string>

    constructor (storage: LocalStorage)
      ensures this.storage == storage && requests == [] && locations == []
    {
      this.storage := storage;
      requests := [];
      locations := [];
    }

    /** The request interceptor: a truthy stored access token becomes the bearer header;
        otherwise the config is passed on unchanged. */
    method OnRequest(config: RequestConfig) returns (out: RequestConfig)
      ensures Truthy(Lookup(storage.items, AccessTokenKey)) ==>
                out == config.(headers := config.headers[AuthorizationHeader := "Bearer " + storage.items[AccessTokenKey]])
      ensures !Truthy(Lookup(storage.items, AccessTokenKey)) ==> out == config
    {
      out := config;
      var token := storage.GetItem(AccessTokenKey);
      if token.Some? && token.value != "" {
        out := out.(headers := out.headers[AuthorizationHeader := "Bearer " + token.value]);
      }
    }

    /** The response interceptor: every reply is handed on unchanged; a 401 rejection first
        removes the access token and the cached user (the refresh token stays) and sends the
        browser to the sign-in page. The in-memory session is not touched. */
    method OnResponse<T>(reply: Reply<T>) returns (out: Reply<T>)
      modifies this, storage
      ensures out == reply
      ensures storage.items == AfterReply(old(storage.items), reply)
      ensures locations == old(locations) + (if Redirects(reply) then [LoginPath] else [])
      ensures requests == old(requests)
    {
      if reply.Err? && reply.error.status == Some(401) {
        storage.RemoveItem(AccessTokenKey);
        storage.RemoveItem(UserKey);
        locations := locations + [LoginPath];
      }
      out := reply;
    }

    /** One call through the axios instance: the request interceptor, the request as sent,
        the server's reply, the response interceptor. */
    method Send<T>(endpoint: Endpoint, reply: Reply<T>) returns (response: Reply<T>)
      modifies this, storage
      ensures response == reply
      ensures requests == old(requests) + [Request(endpoint, HeadersFor(old(storage.items)))]
      ensures storage.items == AfterReply(old(storage.items), reply)
      ensures locations == old(locations) + (if Redirects(reply) then [LoginPath] else [])
    {
      var config := OnRequest(RequestConfig(PathOf(endpoint), JsonHeaders));
      requests := requests + [Request(endpoint, config.headers)];
      response := OnResponse(reply);
    }

    /** `apiService.refreshToken()`: posts `{refreshToken}` holding exactly the stored value
        (null when the key is absent). */
    method RefreshToken<T>(reply: Reply<T>) returns (response: Reply<T>)
      modifies this, storage
      ensures response == reply
      ensures requests == old(requests) +
                [Request(PostRefresh(Lookup(old(storage.items), RefreshTokenKey)), HeadersFor(old(storage.items)))]
      ensures storage.items == AfterReply(old(storage.items), reply)
      ensures locations == old(locations) + (if Redirects(reply) then [LoginPath] else [])
    {
      var refreshToken := storage.GetItem(RefreshTokenKey);
      response := Send(PostRefresh(refreshToken), reply);
    }
  }

  // ----- Query strings and paths -----

  /** The query parameter names the list endpoints use. */
  datatype ParamName = Status | DriverId | DateFrom | DateTo | City | Available

  function NameText(n: ParamName): string {
    match n
    case Status => "status"
    case DriverId => "driverId"
    case DateFrom => "dateFrom"
    case DateTo => "dateTo"
    case City => "city"
    case Available => "available"
  }

  /** One `URLSearchParams` entry. */
  type Param = (ParamName, string)

  /** `DeliveryFilters`; every field is optional. */
  datatype DeliveryFilters = DeliveryFilters(
    status: Option<string>, driverId: Option<string>, dateFrom: Option<string>,
    dateTo: Option<string>, city: Option<string>)

  /** `DriverFilters`; every field is optional. */
  datatype DriverFilters = DriverFilters(status: Option<string>, city: Option<string>, available: Option<bool>)

  /** The order in which `getDeliveries` appends its parameters. */
  function DeliveryRank(n: ParamName): int {
    match n
    case Status => 0
    case DriverId => 1
    case DateFrom => 2
    case DateTo => 3
    case City => 4
    case Available => -1
  }

  /** The delivery filter field named n. */
  function FieldOf(f: DeliveryFilters, n: ParamName): Option<string> {
    match n
    case Status => f.status
    case DriverId => f.driverId
    case DateFrom => f.dateFrom
    case DateTo => f.dateTo
    case City => f.city
    case Available => None
  }

  /** The value of the delivery filter field named n, when it is truthy. */
  function TruthyField(filters: Option<DeliveryFilters>, n: ParamName): Option<string> {
    if filters.Some? && Truthy(FieldOf(filters.value, n)) then FieldOf(filters.value, n) else None
  }

  /** The caller asked for field n: it is set and truthy. */
  predicate Requested(filters: Option<DeliveryFilters>, n: ParamName) {
    TruthyField(filters, n).Some?
  }

  /** params holds, in rank order, exactly the truthy delivery filter fields ranked below upTo. */
  ghost predicate BuiltBelow(params: seq<Param>, filters: Option<DeliveryFilters>, upTo: int) {
    && (forall i :: 0 <= i < |params| ==> 0 <= DeliveryRank(params[i].0) < upTo)
    && (forall i, j :: 0 <= i < j < |params| ==> DeliveryRank(params[i].0) < DeliveryRank(params[j].0))
    && (forall i :: 0 <= i < |params| ==> TruthyField(filters, params[i].0) == Some(params[i].1))
    && (forall n {:trigger Requested(filters, n)} :: DeliveryRank(n) < upTo && Requested(filters, n) ==> (n, TruthyField(filters, n).value) in params)
  }

  /** Appending field n, when truthy, to a list built from the fields ranked below n builds
      it up to n. */
  lemma {:induction false} AppendStep(params: seq<Param>, f: DeliveryFilters, n: ParamName)
    requires DeliveryRank(n) >= 0 && BuiltBelow(params, Some(f), DeliveryRank(n))
    ensures Truthy(FieldOf(f, n)) ==> BuiltBelow(params + [(n, FieldOf(f, n).value)], Some(f), DeliveryRank(n) + 1)
    ensures !Truthy(FieldOf(f, n)) ==> BuiltBelow(params, Some(f), DeliveryRank(n) + 1)
  {
    var filters := Some(f);
    var out := if Truthy(FieldOf(f, n)) then params + [(n, FieldOf(f, n).value)] else params;
    forall m | DeliveryRank(m) < DeliveryRank(n) + 1 && Requested(filters, m)
      ensures (m, TruthyField(filters, m).value) in out
    {
      if m == n {
        assert out[|params|] == (m, TruthyField(filters, m).value);
      } else {
        assert (m, TruthyField(filters, m).value) in params;
      }
    }
  }

  /** `getDeliveries`: one `URLSearchParams.append` per truthy filter field, in the order
      status, driverId, dateFrom, dateTo, city. */
  method DeliveryParams(filters: Option<DeliveryFilters>) returns (params: seq<Param>)
    ensures forall i :: 0 <= i < |params| ==> DeliveryRank(params[i].0) >= 0
    ensures forall i, j :: 0 <= i < j < |params| ==> DeliveryRank(params[i].0) < DeliveryRank(params[j].0)
    ensures forall i :: 0 <= i < |params| ==> TruthyField(filters, params[i].0) == Some(params[i].1)
    ensures forall n {:trigger Requested(filters, n)} :: Requested(filters, n) ==> (n, TruthyField(filters, n).value) in params
  {
    params := [];
    if filters.Some? {
      var f := filters.value;
      assert BuiltBelow(params, filters, 0);
      params := AppendIfTruthy(params, f, Status);
      params := AppendIfTruthy(params, f, DriverId);
      params := AppendIfTruthy(params, f, DateFrom);
      params := AppendIfTruthy(params, f, DateTo);
      params := AppendIfTruthy(params, f, City);
      BuiltIsComplete(params, filters);
    }
  }

  /** One `if (filters?.field) params.append(name, value)` of `getDeliveries`. */
  method AppendIfTruthy(params: seq<Param>, f: DeliveryFilters, n: ParamName) returns (out: seq<Param>)
    requires DeliveryRank(n) >= 0 && BuiltBelow(params, Some(f), DeliveryRank(n))
    ensures out == if Truthy(FieldOf(f, n)) then params + [(n, FieldOf(f, n).value)] else params
    ensures BuiltBelow(out, Some(f), DeliveryRank(n) + 1)
  {
    AppendStep(params, f, n);
    out := params;
    if Truthy(FieldOf(f, n)) {
      out := params + [(n, FieldOf(f, n).value)];
    }
  }

  /** A list built from every field ranked below 5 is the whole `getDeliveries` query. */
  lemma BuiltIsComplete(params: seq<Param>, filters: Option<DeliveryFilters>)
    requires BuiltBelow(params, filters, 5)
    ensures forall i :: 0 <= i < |params| ==> DeliveryRank(params[i].0) >= 0
    ensures forall i, j :: 0 <= i < j < |params| ==> DeliveryRank(params[i].0) < DeliveryRank(params[j].0)
    ensures forall i :: 0 <= i < |params| ==> TruthyField(filters, params[i].0) == Some(params[i].1)
    ensures forall n {:trigger Requested(filters, n)} :: Requested(filters, n) ==> (n, TruthyField(filters, n).value) in params
  {
  }

  /** `getDrivers`: status and city when truthy; `available` whenever it is defined, `false`
      included, written "true" or "false", and always last. */
  method DriverParams(filters: Option<DriverFilters>) returns (params: seq<Param>)
    ensures forall i :: 0 <= i < |params| ==> params[i].0 in {Status, City, Available}
    ensures forall i, j :: 0 <= i < j < |params| ==> params[i].0 != params[j].0
    ensures forall v :: (Status, v) in params <==> filters.Some? && Truthy(filters.value.status) && filters.value.status.value == v
    ensures forall v :: (City, v) in params <==> filters.Some? && Truthy(filters.value.city) && filters.value.city.value == v
    ensures forall v :: (Available, v) in params <==>
              filters.Some? && filters.value.available.Some? && v == (if filters.value.available.value then "true" else "false")
    ensures forall i :: 0 <= i < |params| - 1 ==> params[i].0 != Available
    ensures forall i :: 0 < i < |params| ==> params[i].0 != Status
  {
    params := [];
    if filters.Some? {
      var f := filters.value;
      if Truthy(f.status) { params := params + [(Status, f.status.value)]; }
      if Truthy(f.city) { params := params + [(City, f.city.value)]; }
      if f.available.Some? { params := params + [(Available, if f.available.value then "true" else "false")]; }
    }
  }

  /** `assignDeliveryToDriver`'s path: driverId comes before vehicleId in the query. */
  function AssignPath(trackingNumber: string, driverId: string, vehicleId: string): (p: string)
    ensures |p| == 12 + |trackingNumber| + 17 + |driverId| + 11 + |vehicleId|
    ensures p[..12] == "/deliveries/" && p[12..12 + |trackingNumber|] == trackingNumber
    ensures var q := 12 + |trackingNumber| + 17;
            p[12 + |trackingNumber|..q] == "/assign?driverId="
            && p[q..q + |driverId|] == driverId
            && p[q + |driverId|..q + |driverId| + 11] == "&vehicleId="
            && p[q + |driverId| + 11..] == vehicleId
  {
    "/deliveries/" + trackingNumber + "/assign?driverId=" + driverId + "&vehicleId=" + vehicleId
  }
}
