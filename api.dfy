/** The shared HTTP client of the front end: the token interceptor that runs before every
    request, and the requests each endpoint wrapper builds (verb, path relative to the base
    URL, JSON body, query parameters). The network itself is not modelled: a call's outcome
    is a `Response` that the caller receives as an input. */
module Api {
  import opened Js
  import opened Storage

  const BaseUrl := "http://localhost:5000/api/v1"

  datatype Verb = GET | POST | PUT | DELETE

  datatype Request = Request(verb: Verb, path: string, body: Option<Value>, params: Option<Value>)

  /** How an awaited call ended: the response's `data`, or the rejection's
      `error.response?.data?.message` (`Undefined` when there is none). */
  datatype Response = Ok(data: Value) | Err(message: Value)

  function Url(r: Request): string {
    BaseUrl + r.path
  }

  /** The text a failed call leaves for the user: `error.response?.data?.message || fallback`. */
  function FailureText(message: Value, fallback: string): (r: Value)
    ensures Truthy(message) ==> r == message
    ensures !Truthy(message) ==> r == Str(fallback) && Truthy(r) == (fallback != "")
  {
    Or(message, Str(fallback))
  }

  // The request interceptor (src/api.js:13-19).

  class RequestConfig {
    var headers: map<string, string>

    constructor (headers: map<string, string>)
      ensures this.headers == headers
    {
      this.headers := headers;
    }
  }

  const AuthorizationHeader := "Authorization"
  const BearerPrefix := "Bearer "

  /** The headers after the interceptor, given the stored token (`None` is `null`). */
  function WithAuthorization(headers: map<string, string>, token: Option<string>): (r: map<string, string>)
    ensures Truthy(Param(token)) ==> AuthorizationHeader in r && r[AuthorizationHeader] == BearerPrefix + token.value
    ensures !Truthy(Param(token)) ==> r == headers
    ensures forall k :: k in headers && k != AuthorizationHeader ==> k in r && r[k] == headers[k]
    ensures r.Keys == headers.Keys + (if Truthy(Param(token)) then {AuthorizationHeader} else {})
  {
    if Truthy(Param(token)) then headers[AuthorizationHeader := BearerPrefix + token.value] else headers
  }

  /** `config.headers.Authorization = \`Bearer ${token}\`` when a token is stored; the same
      config object is returned. */
  method InterceptRequest(config: RequestConfig, storage: LocalStorage) returns (r: RequestConfig)
    modifies config
    ensures r == config
    ensures config.headers == WithAuthorization(old(config.headers), storage.GetItem("token"))
  {
    var token := storage.GetItem("token");
    if Truthy(Param(token)) {
      config.headers := config.headers[AuthorizationHeader := BearerPrefix + token.value];
    }
    r := config;
  }

  /** The stored token can be read back from the header the interceptor wrote. */
  lemma AuthorizationCarriesToken(headers: map<string, string>, token: string)
    requires token != ""
    ensures StripPrefix(BearerPrefix, WithAuthorization(headers, Some(token))[AuthorizationHeader]) == Some(token)
  {
    StripPrefixRoundTrip(BearerPrefix, token);
  }

  /** Running the interceptor again with the same stored token changes nothing more. */
  lemma WithAuthorizationIdempotent(headers: map<string, string>, token: Option<string>)
    ensures WithAuthorization(WithAuthorization(headers, token), token) == WithAuthorization(headers, token)
  {
  }

  // Endpoint wrappers (src/api.js:30-80). Path parameters are interpolated verbatim.

  function Login(credentials: Value): Request { Request(POST, "/login", Some(credentials), None) }
  function Logout(): Request { Request(POST, "/logout", None, None) }
  function Signup(userData: Value): Request { Request(POST, "/signup", Some(userData), None) }
  function Request2FA(userId: Value): Request {
    Request(POST, "/request-2fa", Some(Obj(map["userId" := userId])), None)
  }
  function Verify2FA(data: Value): Request { Request(POST, "/verify-2fa", Some(data), None) }
  function ForgotPassword(email: Value): Request {
    Request(POST, "/forgot-password", Some(Obj(map["email" := email])), None)
  }
  const ResetPasswordPrefix := "/reset-password/"
  function ResetPassword(token: string, password: Value): Request {
    Request(PUT, ResetPasswordPrefix + token, Some(Obj(map["password" := password])), None)
  }

  function AddCar(carData: Value): Request { Request(POST, "/car/addCar", Some(carData), None) }
  function UpdateCar(carId: string, carData: Value): Request {
    Request(PUT, "/car/updateCar/" + carId, Some(carData), None)
  }
  function DeleteCar(carId: string): Request { Request(DELETE, "/car/deleteCar/" + carId, None, None) }
  function GetAllCars(): Request { Request(GET, "/car/getAllCars", None, None) }
  function GetOneCar(carId: string): Request { Request(GET, "/car/getOneCar/" + carId, None, None) }

  function AddMaintenance(data: Value): Request {
    Request(POST, "/maintenance/addMaintenance", Some(data), None)
  }
  function GetMaintenanceRecords(carId: string): Request {
    Request(GET, "/maintenance/getMaintenanceRecords/" + carId, None, None)
  }
  const UpdateMaintenancePrefix := "/maintenance/updateMaintenance/"
  function UpdateMaintenance(maintenanceId: string, data: Value): Request {
    Request(PUT, UpdateMaintenancePrefix + maintenanceId, Some(data), None)
  }
  function DeleteMaintenance(maintenanceId: string): Request {
    Request(DELETE, "/maintenance/deleteMaintenance/" + maintenanceId, None, None)
  }
  function AddToCalendar(maintenanceId: string): Request {
    Request(POST, "/maintenance/" + maintenanceId + "/add-to-calendar", None, None)
  }

  function GetAuthUrl(): Request { Request(GET, "/google-calendar/auth", None, None) }
  const TokenExchangePrefix := "/google-calendar/auth/callback?code="
  function GetTokens(code: string): Request { Request(GET, TokenExchangePrefix + code, None, None) }
  function AddEvent(eventData: Value): Request {
    Request(POST, "/google-calendar/add-event", Some(eventData), None)
  }

  function FindNearbyGarages(params: Value): Request {
    Request(GET, "/google-maps/garages", None, Some(params))
  }
  function GetResponse(data: Value): Request { Request(POST, "/openai/response", Some(data), None) }

  /** The reset call is a PUT whose path ends in the token exactly and whose body holds only
      the password. */
  lemma ResetPasswordShape(token: string, password: Value)
    ensures ResetPassword(token, password).verb == PUT
    ensures StripPrefix(ResetPasswordPrefix, ResetPassword(token, password).path) == Some(token)
    ensures ResetPassword(token, password).body == Some(Obj(map["password" := password]))
  {
    StripPrefixRoundTrip(ResetPasswordPrefix, token);
  }

  /** The code goes into the query string with no encoding: whatever it contains, it is
      exactly what follows `?code=`, so two codes never share a path. */
  lemma TokenExchangeVerbatim(code: string, other: string)
    ensures StripPrefix(TokenExchangePrefix, GetTokens(code).path) == Some(code)
    ensures GetTokens(code).path == GetTokens(other).path ==> code == other
  {
    StripPrefixRoundTrip(TokenExchangePrefix, code);
    StripPrefixRoundTrip(TokenExchangePrefix, other);
  }

  /** The record being updated is named by the path alone: the identifier is recovered from it. */
  lemma UpdateMaintenanceNamesRecord(maintenanceId: string, data: Value)
    ensures StripPrefix(UpdateMaintenancePrefix, UpdateMaintenance(maintenanceId, data).path) == Some(maintenanceId)
  {
    StripPrefixRoundTrip(UpdateMaintenancePrefix, maintenanceId);
  }

  /** The 2FA request's body carries exactly the given user id under `userId`. */
  lemma Request2FABody(userId: Value)
    ensures Request2FA(userId).body.Some?
    ensures Member(Request2FA(userId).body.value, "userId") == userId
    ensures Request2FA(userId).body.value.fields.Keys == {"userId"}
  {
  }
}
