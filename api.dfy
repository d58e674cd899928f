/** The thin HTTP client of the single-page app (`ApiClient` in src/lib/api.ts).

    `fetch` is a parameter: a total function from the request the client
    builds to the reply it gets back. A reply is either a rejected `fetch`
    (a network failure, surfaced by the browser as a `TypeError`), an ok
    response, or a non-ok response; in the last two cases the JSON body may
    fail to parse (`response.json()` then rejects with a `SyntaxError`).
    Every way a call can fail therefore rejects with an `Error`, and the
    model keeps only that error's message. */
module Api {
  import opened Wrappers
  import opened Browser

  /** The fixed base address of the backend. */
  const ApiUrl: string := "http://localhost:8000"

  const SignupFallback: string := "Signup failed"
  const LoginFallback: string := "Login failed"
  const PredictFallback: string := "Prediction failed"
  const PredictionsFallback: string := "Failed to fetch predictions"

  /** `AuthResponse`: what signup and login return. */
  datatype AuthResponse = AuthResponse(access_token: string, token_type: string)

  /** A browser `File` picked by the user; its bytes are opaque here. */
  datatype File = File(name: string, mimeType: string, bytes: seq<bv8>)

  /** `Prediction`, the record the backend returns for one image. The two
      numeric fields are floating-point numbers in the source; the model
      only carries them, it never computes with them. */
  datatype Prediction = Prediction(
    id: string,
    disease_name: string,
    category: string,
    confidence_score: real,
    severity_level: string,
    intensity_percentage: real,
    visual_symptoms: seq<string>,
    natural_cure: seq<string>,
    chemical_cure: seq<string>,
    prevention_tips: seq<string>,
    image_url: string,
    created_at: string)

  datatype HttpMethod = Get | Post

  /** The body `fetch` sends: none, `JSON.stringify({email, password})`, or
      a `FormData` given as its ordered list of fields. */
  datatype Body =
    | NoBody
    | JsonCredentials(email: string, password: string)
    | Form(fields: seq<(string, File)>)

  datatype Request = Request(verb: HttpMethod, url: string, headers: map<string, string>, body: Body)

  /** The `detail` property of a parsed error body: missing (`undefined`), a
      string, or some other JSON value, which has its own JavaScript
      truthiness and its own `String(...)` rendering. */
  datatype Detail = Absent | Text(s: string) | NonText(truthy: bool, rendered: string)

  /** The result of `response.json()`. */
  datatype Json<T> = Parsed(value: T) | Unparsable(message: string)

  datatype Reply<T> =
    | Rejected(message: string)
    | Ok(payload: Json<T>)
    | NotOk(status: int, errorBody: Json<Detail>)

  /** JavaScript truthiness of a `detail` value. */
  predicate DetailTruthy(d: Detail) {
    match d
    case Absent => false
    case Text(s) => s != ""
    case NonText(truthy, _) => truthy
  }

  /** The `Authorization` header value built from the stored token. */
  function AuthorizationValue(stored: Option<string>): (v: string)
    ensures v != "" <==> Truthy(stored)
    ensures Truthy(stored) ==> |v| > 7 && v[..7] == "Bearer " && v[7..] == stored.value
  {
    if Truthy(stored) then "Bearer " + stored.value else ""
  }

  /** The token a server reads back out of an `Authorization` value. */
  function BearerToken(v: string): (t: Option<string>)
  {
    if |v| > 7 && v[..7] == "Bearer " then Some(v[7..]) else None
  }

  /** The header value loses nothing: the token it was built from can be
      read back out of it, and no header is sent without a token. */
  lemma BearerRoundTrip(stored: Option<string>)
    ensures BearerToken(AuthorizationValue(stored)) == (if Truthy(stored) then stored else None)
  {
  }

  /** `getAuthHeaders()`: always exactly one header, `Authorization`. */
  function AuthHeaders(stored: Option<string>): (h: map<string, string>)
    ensures h.Keys == {"Authorization"}
    ensures h["Authorization"] == AuthorizationValue(stored)
  {
    map["Authorization" := AuthorizationValue(stored)]
  }

  const JsonHeaders: map<string, string> := map["Content-Type" := "application/json"]

  /** The message of the `Error` thrown on a non-ok response whose body
      parsed: `new Error(error.detail || fallback)`. */
  function ErrorMessage(d: Detail, fallback: string): (m: string)
    ensures DetailTruthy(d) && d.Text? ==> m == d.s
    ensures DetailTruthy(d) && d.NonText? ==> m == d.rendered
    ensures !DetailTruthy(d) ==> m == fallback
    ensures fallback != "" && m == "" ==> d.NonText? && d.truthy && d.rendered == ""
  {
    match d
    case Absent => fallback
    case Text(s) => if s != "" then s else fallback
    case NonText(truthy, rendered) => if truthy then rendered else fallback
  }

  /** What an awaited call settles to, given the reply and the operation's
      fallback message: the parsed body on an ok response, otherwise the
      message of the `Error` the call rejects with. */
  function Settle<T>(reply: Reply<T>, fallback: string): (r: Result<T, string>)
    ensures r.Success? <==> reply.Ok? && reply.payload.Parsed?
    ensures r.Success? ==> r.value == reply.payload.value
    ensures reply.NotOk? && reply.errorBody.Parsed? ==> r == Failure(ErrorMessage(reply.errorBody.value, fallback))
    ensures reply.Rejected? ==> r == Failure(reply.message)
    ensures reply.Ok? && reply.payload.Unparsable? ==> r == Failure(reply.payload.message)
    ensures reply.NotOk? && reply.errorBody.Unparsable? ==> r == Failure(reply.errorBody.message)
  {
    match reply
    case Rejected(message) => Failure(message)
    case Ok(Parsed(v)) => Success(v)
    case Ok(Unparsable(message)) => Failure(message)
    case NotOk(_, Parsed(d)) => Failure(ErrorMessage(d, fallback))
    case NotOk(_, Unparsable(message)) => Failure(message)
  }

  /** The request `signup` sends. */
  function SignupRequest(email: string, password: string): (q: Request)
    ensures q.verb == Post && q.url == ApiUrl + "/auth/signup"
    ensures q.body == JsonCredentials(email, password)
    ensures q.headers == JsonHeaders && "Authorization" !in q.headers
  {
    Request(Post, ApiUrl + "/auth/signup", JsonHeaders, JsonCredentials(email, password))
  }

  /** The request `login` sends. */
  function LoginRequest(email: string, password: string): (q: Request)
    ensures q.verb == Post && q.url == ApiUrl + "/auth/login"
    ensures q.body == JsonCredentials(email, password)
    ensures q.headers == JsonHeaders && "Authorization" !in q.headers
  {
    Request(Post, ApiUrl + "/auth/login", JsonHeaders, JsonCredentials(email, password))
  }

  /** The request `predict` sends: one form field `file`, and the auth
      headers built from the token stored at the time of the call. */
  function PredictRequest(stored: Option<string>, file: File): (q: Request)
    ensures q.verb == Post && q.url == ApiUrl + "/predict"
    ensures q.body == Form([("file", file)])
    ensures q.headers == AuthHeaders(stored)
  {
    Request(Post, ApiUrl + "/predict", AuthHeaders(stored), Form([("file", file)]))
  }

  /** The request `getPredictions` sends: `fetch`'s default method, no body. */
  function PredictionsRequest(stored: Option<string>): (q: Request)
    ensures q.verb == Get && q.url == ApiUrl + "/predictions"
    ensures q.body == NoBody
    ensures q.headers == AuthHeaders(stored)
  {
    Request(Get, ApiUrl + "/predictions", AuthHeaders(stored), NoBody)
  }

  /** Sign-up and log-in differ only in the endpoint they post to. */
  lemma CredentialRequestsDifferOnlyInPath(email: string, password: string)
    ensures SignupRequest(email, password).(url := "") == LoginRequest(email, password).(url := "")
    ensures SignupRequest(email, password).url != LoginRequest(email, password).url
  {
  }

  /** The outcome `signup(email, password)` settles to. */
  function SignupResult(email: string, password: string, fetch: Request -> Reply<AuthResponse>): Result<AuthResponse, string> {
    Settle(fetch(SignupRequest(email, password)), SignupFallback)
  }

  /** The outcome `login(email, password)` settles to. */
  function LoginResult(email: string, password: string, fetch: Request -> Reply<AuthResponse>): Result<AuthResponse, string> {
    Settle(fetch(LoginRequest(email, password)), LoginFallback)
  }

  /** The outcome `predict(file)` settles to, with `stored` the token in
      storage when the call is made. */
  function PredictResult(stored: Option<string>, file: File, fetch: Request -> Reply<Prediction>): Result<Prediction, string> {
    Settle(fetch(PredictRequest(stored, file)), PredictFallback)
  }

  /** The outcome `getPredictions()` settles to. */
  function PredictionsResult(stored: Option<string>, fetch: Request -> Reply<seq<Prediction>>): Result<seq<Prediction>, string> {
    Settle(fetch(PredictionsRequest(stored)), PredictionsFallback)
  }

  /** `ApiClient.signup`. */
  method Signup(email: string, password: string, fetch: Request -> Reply<AuthResponse>)
    returns (r: Result<AuthResponse, string>)
    ensures r == SignupResult(email, password, fetch)
  {
    var request := SignupRequest(email, password);
    var response := fetch(request);
    r := Settle(response, SignupFallback);
  }

  /** `ApiClient.login`. */
  method Login(email: string, password: string, fetch: Request -> Reply<AuthResponse>)
    returns (r: Result<AuthResponse, string>)
    ensures r == LoginResult(email, password, fetch)
  {
    var request := LoginRequest(email, password);
    var response := fetch(request);
    r := Settle(response, LoginFallback);
  }

  /** `ApiClient.predict`: the token is read from storage on every call. */
  method Predict(storage: LocalStorage, file: File, fetch: Request -> Reply<Prediction>)
    returns (r: Result<Prediction, string>)
    ensures r == PredictResult(storage.Get(TokenKey), file, fetch)
  {
    var token := storage.GetItem(TokenKey);
    var request := PredictRequest(token, file);
    var response := fetch(request);
    r := Settle(response, PredictFallback);
  }

  /** `ApiClient.getPredictions`: the token is read from storage on every call. */
  method GetPredictions(storage: LocalStorage, fetch: Request -> Reply<seq<Prediction>>)
    returns (r: Result<seq<Prediction>, string>)
    ensures r == PredictionsResult(storage.Get(TokenKey), fetch)
  {
    var token := storage.GetItem(TokenKey);
    var request := PredictionsRequest(token);
    var response := fetch(request);
    r := Settle(response, PredictionsFallback);
  }

  /** A 401 whose body is `{"detail": "Invalid token"}` surfaces exactly
      that text, not the fallback. */
  lemma InvalidTokenSurfacesVerbatim(fetch: Request -> Reply<Prediction>, stored: Option<string>, file: File)
    requires fetch(PredictRequest(stored, file)) == NotOk(401, Parsed(Text("Invalid token")))
    ensures PredictResult(stored, file, fetch) == Failure("Invalid token")
  {
  }
}
