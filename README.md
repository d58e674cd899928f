# Cotton leaf disease detector — client session and upload logic, in Dafny

The system is a single-page client and a small backend for cotton leaf
diagnosis. A user logs in or signs up and receives a bearer token, which is
kept in browser storage under the key `token`. The user then uploads a leaf
photograph and sees the backend's prediction: disease, category, severity,
and advisory lists. The backend asks a vision model to classify the image
and a second model to suggest treatments.

This project models the parts of that system that are logic rather than
calls into other services. Each Dafny module follows one source file:

- `Api` (`src/lib/api.ts`): the requests the HTTP client builds, the
  `Authorization` header taken from the stored token, and how a reply
  settles. A reply settles to the parsed body or to an `Error` message,
  with a per-operation fallback when `detail` is missing or falsy.
  `fetch` is a function parameter from request to reply.
- `Auth` (`src/contexts/AuthContext.tsx`): the session store, a class with
  a `token` slot and the shared `LocalStorage`. It has a mount effect,
  `login`, `signup`, `logout`, the derived `isAuthenticated`, and
  `useAuth`'s check that a provider is present.
- `Dashboard` (`src/components/Dashboard.tsx`): the upload panel, a class
  with the five state slots. It has file selection, the upload (split into
  start, success and failure, and composed as `HandleUpload`), reset, and
  the button guards. Alongside the class are the severity-tier and
  category-indicator mappings and the rule that an advisory list is shown
  only when it is non-empty.
- `AiServices` (`backend/ai_services.py`): Python's `strip()` and slice
  semantics, the code-fence stripping applied to the vision model's reply,
  and how Gemini and Ollama failures become HTTP errors.
- `App` (`src/App.tsx`): choosing the dashboard, the log-in form or the
  sign-up form, and the `showLogin` toggles.
- `Browser` holds `localStorage` as a class over a map, plus JavaScript
  truthiness of a `string | null`. `Wrappers` holds `Option`, `Result` and
  `Outcome`.

Facts about the code that the model keeps:

- A failed upload keeps any earlier prediction on screen. A new analysis
  can be started while a result is shown, because the file stays selected.
- `isAuthenticated` is `!!token`, so an empty-string token counts as not
  authenticated. The `Authorization` header is empty for an empty stored
  token as well as for a missing one.
- The client has four operations: `signup`, `login`, `predict` and
  `getPredictions`.

## Model

| member | source | states |
|---|---|---|
| Browser.Truthy | src/contexts/AuthContext.tsx:44 | `!!v` on a `string \| null`: true iff the value is present and non-empty (also the tests at src/contexts/AuthContext.tsx:19 and src/lib/api.ts:27) |
| Browser.LocalStorage.Get | src/contexts/AuthContext.tsx:18 | `getItem` yields the stored value exactly when the key is present, and `null` otherwise |
| Browser.LocalStorage.GetItem | src/lib/api.ts:25 | reading storage returns the entry under the key, or `None` |
| Browser.LocalStorage.SetItem | src/contexts/AuthContext.tsx:26 | writing storage replaces the one entry under the key and keeps every other entry |
| Browser.LocalStorage.RemoveItem | src/contexts/AuthContext.tsx:37 | removing deletes exactly that key |
| Api.AuthorizationValue | src/lib/api.ts:24-29 | the header value is non-empty iff the stored token is truthy; it is then `"Bearer "` followed by exactly that token |
| Api.BearerRoundTrip | src/lib/api.ts:27 | the token can be read back out of the header value; a header built without a truthy token carries none |
| Api.AuthHeaders | src/lib/api.ts:24-29 | the auth headers are exactly one entry, `Authorization`, with that value |
| Api.ErrorMessage | src/lib/api.ts:38-41 | the thrown message is `detail` when `detail` is truthy (a non-string `detail` by its string rendering), and otherwise the fallback. With a non-empty fallback, the message is empty only for a truthy non-string `detail` that renders as empty. The same rule sits at lines 53-56, 71-74 and 84-87 |
| Api.Settle | src/lib/api.ts:38-43 | an ok reply whose JSON parses returns the body unchanged. A non-ok reply whose JSON parses fails with the detail-or-fallback message. A rejected `fetch` or an unparsable body fails with that error's own message; nothing else succeeds |
| Api.SignupRequest | src/lib/api.ts:31-36 | signup POSTs the JSON body `{email, password}` to `/auth/signup`, with only the JSON content type and no `Authorization` |
| Api.LoginRequest | src/lib/api.ts:46-51 | login POSTs the JSON body `{email, password}` to `/auth/login`, with no `Authorization` |
| Api.CredentialRequestsDifferOnlyInPath | src/lib/api.ts:31-51 | the signup and login requests are equal apart from their URL, and the URLs differ |
| Api.PredictRequest | src/lib/api.ts:61-69 | predict POSTs one form field `file` to `/predict`, with the auth headers built from the given stored token |
| Api.PredictionsRequest | src/lib/api.ts:79-82 | getPredictions uses a GET with no body on `/predictions`, with the auth headers |
| Api.SignupResult | src/lib/api.ts:31-44 | the outcome `signup` settles to is `Settle` of the reply to `SignupRequest`, with the fallback `'Signup failed'` |
| Api.LoginResult | src/lib/api.ts:46-59 | the outcome `login` settles to is `Settle` of the reply to `LoginRequest`, with the fallback `'Login failed'` |
| Api.PredictResult | src/lib/api.ts:61-77 | the outcome `predict` settles to, for the token stored at call time, with the fallback `'Prediction failed'` |
| Api.PredictionsResult | src/lib/api.ts:79-90 | the outcome `getPredictions` settles to, for the token stored at call time, with the fallback `'Failed to fetch predictions'` |
| Api.Signup | src/lib/api.ts:31-44 | `signup` settles to what its request and reply determine, with the fallback `'Signup failed'` |
| Api.Login | src/lib/api.ts:46-59 | `login` settles likewise, with the fallback `'Login failed'` |
| Api.Predict | src/lib/api.ts:61-77 | `predict` reads the token from storage at call time, sends the request built from it, and settles with the fallback `'Prediction failed'` |
| Api.GetPredictions | src/lib/api.ts:79-90 | `getPredictions` reads the token at call time and settles with the fallback `'Failed to fetch predictions'` |
| Api.InvalidTokenSurfacesVerbatim | src/lib/api.ts:71-74 | a 401 reply with the detail `Invalid token` fails with exactly `Invalid token` |
| Auth.UseAuth | src/contexts/AuthContext.tsx:56-61 | `useAuth` fails, with its fixed message, exactly when no provider value is present; otherwise it returns that value |
| Auth.AuthProvider.constructor | src/contexts/AuthContext.tsx:15 | the token starts as `null`, and the provider starts unauthenticated |
| Auth.AuthProvider.IsAuthenticated | src/contexts/AuthContext.tsx:44 | authenticated iff the token is non-null and non-empty |
| Auth.AuthProvider.Value | src/contexts/AuthContext.tsx:42-49 | the published value carries the token and the truthiness of the token |
| Auth.AuthProvider.Mount | src/contexts/AuthContext.tsx:17-22 | the mount effect adopts the stored token only when it is truthy; otherwise the token is left as it was; storage is not written |
| Auth.AuthProvider.Login | src/contexts/AuthContext.tsx:24-28 | on success, the stored `token` entry and the state token both equal `access_token` exactly, and other storage entries are kept. On failure the error propagates and neither storage nor state changes |
| Auth.AuthProvider.Signup | src/contexts/AuthContext.tsx:30-34 | the same as login, through the signup call |
| Auth.AuthProvider.Logout | src/contexts/AuthContext.tsx:36-39 | from any state, the `token` entry is removed, the other entries are kept, the token becomes `null`, and the provider is unauthenticated |
| Auth.LogoutTwice | src/contexts/AuthContext.tsx:36-39 | logging out twice leaves the same storage and token as logging out once |
| Auth.LoginThenReload | src/contexts/AuthContext.tsx:17-28 | after a successful login with a non-empty token, a fresh provider mounted on the same storage is authenticated with the same token |
| Dashboard.CaughtMessage | src/components/Dashboard.tsx:35 | an `Error`'s message is shown as it is; any other thrown value shows `'Prediction failed'` |
| Dashboard.ToLower | src/components/Dashboard.tsx:52 | lower-casing keeps the length and maps each character by the letter rule |
| Dashboard.SeverityTier | src/components/Dashboard.tsx:51-59 | `getSeverityColor`: the tier after lower-casing; which input picks which tier is stated by `SeverityTierByWord` |
| Dashboard.SeverityTierByWord | src/components/Dashboard.tsx:51-59 | each of low, medium, high and critical is chosen exactly when the severity spells that word in any mix of cases. Every other string gets the neutral (gray) tier |
| Dashboard.SeverityTierIgnoresCase | src/components/Dashboard.tsx:51-59 | strings that differ only in letter case get the same tier |
| Dashboard.UnknownSeverityScenario | src/components/Dashboard.tsx:57 | `EXTREME` gets the neutral tier |
| Dashboard.CategoryIndicator | src/components/Dashboard.tsx:61-64 | the check icon is chosen iff the category is exactly `healthy`; the test is case-sensitive |
| Dashboard.NonEmptySections | src/components/Dashboard.tsx:180-234 | the rendered blocks are never more than the blocks given |
| Dashboard.NonEmptySectionsMembers | src/components/Dashboard.tsx:180-234 | a block is rendered iff it is one of the given blocks and its list is non-empty |
| Dashboard.NonEmptySectionsAppend | src/components/Dashboard.tsx:180-234 | filtering distributes over concatenation, so the rendered blocks keep the page order |
| Dashboard.AdvisorySections | src/components/Dashboard.tsx:180-234 | the advisory blocks rendered for a prediction: the four lists filtered to the non-empty ones; `AdvisorySectionsInOrder` states which and in what order |
| Dashboard.AdvisorySectionsInOrder | src/components/Dashboard.tsx:180-234 | the blocks shown are the non-empty lists among symptoms, natural cure, chemical treatment and prevention tips, in that order, each with the server's items |
| Dashboard.HealthyLowScenario | src/components/Dashboard.tsx:143-192 | a healthy prediction of severity `Low` with no symptoms shows the check icon, the low tier, and no symptoms block |
| Dashboard.UploadPanel.constructor | src/components/Dashboard.tsx:8-12 | the panel starts with no file, no preview, no error, no result, and not loading |
| Dashboard.UploadPanel.AnalyzeEnabled | src/components/Dashboard.tsx:126 | Analyze is usable iff a file is selected and nothing is loading |
| Dashboard.UploadPanel.ResetShown | src/components/Dashboard.tsx:131 | the Reset button is rendered iff a file or a result is present |
| Dashboard.UploadPanel.ResetEnabled | src/components/Dashboard.tsx:131-139 | Reset is usable iff it is rendered and nothing is loading |
| Dashboard.UploadPanel.ErrorShown | src/components/Dashboard.tsx:116 | the error banner is rendered iff the error message is non-empty |
| Dashboard.UploadPanel.HandleFileChange | src/components/Dashboard.tsx:15-23 | selecting a file stores the first file and its preview URL and clears the result and the error; `loading` is kept. A change with no file leaves all five slots unchanged |
| Dashboard.UploadPanel.UploadStart | src/components/Dashboard.tsx:25-29 | called only when not loading, because the button is disabled during loading (line 126). With no file it starts nothing and changes nothing. Otherwise it sets `loading` and clears the error, keeping the file, preview and result; Analyze and Reset are then disabled |
| Dashboard.UploadPanel.UploadSucceed | src/components/Dashboard.tsx:32-38 | the result becomes the prediction and `loading` becomes false; file, preview and error are kept |
| Dashboard.UploadPanel.UploadFail | src/components/Dashboard.tsx:34-38 | the error becomes the caught message and `loading` becomes false; any prior result is kept |
| Dashboard.UploadPanel.HandleUpload | src/components/Dashboard.tsx:25-39 | an upload ends with `loading` false in every case, and the file and preview are kept. With no file nothing changes. Otherwise, success stores the prediction and leaves no error, and failure shows the API's message and keeps the prior result. The request uses the token stored at that moment |
| Dashboard.UploadPanel.HandleReset | src/components/Dashboard.tsx:41-49 | reset runs only when the button is shown (file or result present) and enabled (not loading), lines 131-139. It clears the file, preview, result and error, and does not touch `loading`. Afterwards neither button is usable and no error is shown |
| AiServices.IsSpace | backend/ai_services.py:38 | the characters for which Python's `str.isspace()` holds, which `strip()` removes |
| AiServices.LeadingSpaces | backend/ai_services.py:38 | the count is the length of the longest all-whitespace prefix |
| AiServices.TrailingSpaces | backend/ai_services.py:38 | the count is the length of the longest all-whitespace suffix |
| AiServices.Strip | backend/ai_services.py:38 | `strip()` returns the slice of the input between its leading and trailing whitespace runs, and that slice has whitespace at neither end |
| AiServices.StripPadded | backend/ai_services.py:38 | stripping any text padded with whitespace gives back that text, which determines `strip()` completely |
| AiServices.StripIdempotent | backend/ai_services.py:38-40 | stripping twice is stripping once |
| AiServices.PySlice | backend/ai_services.py:40-42 | Python slicing: never longer than the input, equal to the ordinary slice for in-range `0 <= start <= stop`, and empty when a negative `stop` normalises to at most `start` |
| AiServices.DropThreeSlice | backend/ai_services.py:40-42 | `s[k:-3]` is `s` without its first `k` and last three characters when `s` is long enough; otherwise it is empty (Python slicing) |
| AiServices.StripFence | backend/ai_services.py:38-42 | the text handed to `json.loads` has no whitespace at either end and is no longer than the trimmed reply; a trimmed reply not starting with three backticks is handed on unchanged |
| AiServices.StripFencePadded | backend/ai_services.py:38 | whitespace around a reply is removed before any prefix test |
| AiServices.StripFenceOfJson | backend/ai_services.py:39-40 | a trimmed reply starting with a `json` fence becomes `s[7:-3]` trimmed, or empty when it has fewer than ten characters |
| AiServices.StripFenceOfBare | backend/ai_services.py:41-42 | a trimmed reply starting with a bare fence but not a `json` fence becomes `s[3:-3]` trimmed, or empty when it has fewer than six characters |
| AiServices.BareFenceIsNotJson | backend/ai_services.py:39-41 | a bare fence around contents not starting with `json` does not pass the `json` test |
| AiServices.JsonFenceRoundTrip | backend/ai_services.py:38-40 | a reply fenced as `json`, with any surrounding whitespace, yields its trimmed contents; the `json` test takes precedence over the bare test |
| AiServices.BareFenceRoundTrip | backend/ai_services.py:38-42 | a reply in a bare fence, with any surrounding whitespace, yields its trimmed contents |
| AiServices.ClosingFenceNotChecked | backend/ai_services.py:39-40 | the closing fence is never checked: after a `json` fence the last three characters are dropped, whatever they are |
| AiServices.HttpErrorText | backend/ai_services.py:93-94 | the text of an `HTTPException` is its three-digit status, then `": "`, then its detail |
| AiServices.UnavailableText | backend/ai_services.py:93-94 | the exception raised for a non-200 Ollama answer renders as `500: Ollama service unavailable` |
| AiServices.AnalyzeWithGemini | backend/ai_services.py:12-48 | Gemini analysis succeeds iff the SDK replies and the fence-stripped text parses, and it then returns the parsed value. Every failure becomes status 500 with a detail starting `Gemini analysis failed: ` |
| AiServices.AnalyzeWithOllama | backend/ai_services.py:82-105 | a connection failure, and nothing else, becomes 503 with `Ollama service not running. Please start Ollama.`. Every other failure, the non-200 raise included, becomes 500 with a detail starting `Ollama analysis failed: `. Success requires a 200 answer that parses |
| App.SelectView | src/App.tsx:11-19 | the dashboard is shown iff authenticated, whatever `showLogin` is. When not authenticated, the view is Login iff `showLogin` and Signup iff not |
| App.AppContent.constructor | src/App.tsx:8 | `showLogin` starts true, so the first unauthenticated view is Login |
| App.AppContent.CurrentView | src/App.tsx:11-19 | the rendered view is the dashboard iff the session is authenticated; otherwise it is Login iff `showLogin` |
| App.AppContent.ToggleFromLogin | src/App.tsx:16 | Login's toggle clears `showLogin`, turning the Login view into the Signup view |
| App.AppContent.ToggleFromSignup | src/App.tsx:18 | Signup's toggle sets `showLogin`, turning the Signup view into the Login view |
| App.SignupThenLogout | src/App.tsx:8-19 | switching to Signup, signing up and logging out shows the dashboard and then the Signup view again; authentication never changes `showLogin` |
| App.LoginThenPredict | src/lib/api.ts:61-69 | after a login that returns a token, the next predict request carries `Bearer ` followed by that token |
| App.LogoutThenPredict | src/lib/api.ts:24-29 | after logout, the next predict request carries an empty `Authorization` value |

## Left out

- `fetch`, `FormData` and the multipart encoding, `response.json()`, and the browser's `Content-Type` for form data are not modelled. They are I/O. `fetch` is a deterministic function parameter, so two identical requests in one proof get the same reply.
- A JSON `null` error body makes `error.detail` throw a `TypeError`. That case is folded into the "body unparsable" reply: an `Error` with an engine-chosen message.
- `URL.createObjectURL` is a browser API. Its URL is a parameter of `HandleFileChange`.
- Clearing the DOM file input on reset (src/components/Dashboard.tsx:46-48), the JSX markup and the CSS class strings are not modelled. A severity tier stands for its class string and an indicator for its icon. The preview image, the error banner and the Analyze label are not modelled beyond the guard predicates.
- Async interleaving is not modelled, nor a response that arrives after a reset. `HandleUpload` runs sequentially. The three upload steps are separate methods that a caller may interleave, but no proof talks about stale responses.
- The Logout button (src/components/Dashboard.tsx:79) is `Auth.AuthProvider.Logout`.
- Dashboard.ToLower: lower-cases only the letters A to Z and, unlike JavaScript's `toLowerCase`, always keeps the length. JavaScript applies full Unicode case mapping: É becomes é, and U+0130 (İ) becomes `i` followed by U+0307. The tier result is still exact. U+212A (the Kelvin sign) becomes `k`, which appears in none of the four words. U+0130 becomes two characters, so the string can no longer equal one of the words. Every other non-ASCII character lower-cases to a non-ASCII character.
- Dashboard.NonEmptySections: its own contract only bounds the length. Membership and order are stated by the lemmas `NonEmptySectionsMembers` and `NonEmptySectionsAppend`.
- React's provider, re-rendering and state batching are not modelled. The mount effect is a method that the caller invokes after construction. The context value leaves out the three operation closures.
- The Login and Signup form components are not part of this model; only their `onToggle` callbacks are.
- In the backend, the Gemini SDK call, the `httpx` request, base64 encoding, `json.loads` and the pydantic response models are foreign calls. They are parameters that succeed or fail with the exception's text. The prompt texts, the model names and the 60-second timeout are not modelled either.
- The text of the exception raised at backend/ai_services.py:94 follows Starlette's `HTTPException.__str__`, which is `"<status>: <detail>"`. That library is not part of this model.
- backend/main.py, backend/models.py and backend/config.py are not part of this model. They are database and storage calls, data schemas and settings. `Api.Prediction` follows the `Prediction` interface of src/lib/api.ts, and its two numeric fields are carried as opaque `real` values.
