# STEAM Buds client authentication core, in Dafny

This project models the client-side authentication core of the STEAM Buds web application and proves properties of that model. The core covers:

- **Persisted session state.**
  - Tokens and the cached user record are stored in the browser's `localStorage`.
  - Three helper layers read and write it: the token utilities (`src/utils/auth.ts`), the `storage` helper object (`src/utils/storage.ts`) and the older single-entry store (`src/auth.ts`).
  - `localStorage` is a class whose only field is a `map<string, string>`. Every setter and remover is a method that states exactly how the map changes.
- **Two session managers.**
  - The role-aware provider (`src/context/AuthContext.tsx`) handles mount-time restore, login, signup, logout and token refresh.
  - The earlier provider (`src/contexts/AuthContext.tsx`) works on the `storage` helper and `APIService`.
  - Each is a class. It holds the in-memory fields and the shared store, and keeps an invariant tying the two together.
  - The outcome of each remote call is a parameter, and each method returns the calls it made, in order.
- **Token claim checks.** Expiry and the user-id claim are read from a decoded JWT. The decoder is a function-valued parameter, and the clock is an integer number of milliseconds.
- **The two HTTP clients.**
  - `handleResponse` and the endpoint requests of `src/api/auth.ts`.
  - `APIService.request` and the endpoint methods of `src/services/api.ts`.
  - Both clients send the `Bearer` credential of section 2.1 of RFC 6750, and both give 204 No Content replies (section 15.3.5 of RFC 9110) an empty object.
  - Each request builder is proved against an independent decoder: the server reads back exactly the call that was made.
- **Routing decisions.**
  - `getRoleDefaultRoute` is proved equal to a priority fold over the roles, and independent of their order.
  - The two route guards.
  - The login page's role guess from the email address.
  - The signup page's form check and submit.

JSON is modelled concretely in the `Json` module: a compact serialiser and a parser for the same text. They are proved inverse (`Parse(s) == Some(j)` exactly when `Serialize(j) == s`), so every "store, then read back" property is a theorem, not an axiom.

Modules, one per source file, plus shared ones:

- `Wrappers`: `Option` and `Result`.
- `Json`: the JSON stand-in.
- `Http`: the request and response records, and the Bearer credential.
- `Navigation`: router calls, recorded as outputs.
- `WebStorage`: `localStorage`.
- `AuthUtils`, `Storage`, `AuthStore`, `AuthApi`, `ApiService`, `AuthContext`, `LegacyAuthContext`, `RoleProtectedRoute`, `PublicRoute`, `LoginPage` and `SignupPage`: one for each source file.

Four behaviours of the code are easy to misread. The model follows the code in each:

- **Expiry is strict.**
  - A token is expired only when `exp * 1000 < now`, so at the instant `exp` it still counts as valid. Section 4.1.4 of RFC 7519 says a token must not be accepted on or after its `exp` time.
  - `AuthUtils.ExpiryAgainstRfc7519` states the difference exactly.
  - A token without an `exp` claim never expires.
- **Role-aware `login` is not atomic.**
  - The token pair is persisted before the user is fetched.
  - If the new token names no user, or the fetch fails, the new tokens stay stored and the user is unchanged. A failed login can therefore leave a partial session in storage.
- **Role-aware `refreshToken` does not always refetch or log out.** When the new access token names no user, it keeps the new token, does not fetch and does not log out.
- **The mount effect needs both entries.**
  - It only acts when both an access token and a user record are stored.
  - With a token but no user record it changes nothing.
  - Its clearing removes the three entries of the token utilities. That means access token, refresh token and user data; the profile cache is not touched.

## Model

| member | source | states |
|---|---|---|
| `AuthUtils.SaveTokens` | src/utils/auth.ts:42-59 | writes exactly the two token entries; afterwards both getters return the tokens just saved |
| `AuthUtils.GetAccessToken` | src/utils/auth.ts:50-52 | the entry under the access-token key, `None` exactly when it is absent |
| `AuthUtils.GetRefreshToken` | src/utils/auth.ts:57-59 | the entry under the refresh-token key, `None` exactly when it is absent |
| `AuthUtils.ClearTokens` | src/utils/auth.ts:64-68 | removes exactly the access-token, refresh-token and user-data entries; afterwards both token getters and `GetUserData` give `None` |
| `AuthUtils.IsTokenExpired` | src/utils/auth.ts:73-82 | a token that does not decode is expired; a decoded `exp` expires strictly before now (`exp*1000 < nowMs`); a missing `exp` never expires |
| `AuthUtils.ExpiryAgainstRfc7519` | src/utils/auth.ts:77 | for a decoded `exp`, the source's verdict equals the RFC 7519 rule except at `now == exp`, where the token is still valid |
| `AuthUtils.ExpiryIsMonotone` | src/utils/auth.ts:73-82 | once expired, a token stays expired at every later time |
| `AuthUtils.GetUserIdFromToken` | src/utils/auth.ts:87-95 | an id exactly when the token decodes and its `user_id` is present and non-empty, and then it is that claim |
| `AuthUtils.UserJsonRoundTrip` | src/utils/auth.ts:100-117 | a user record, serialised as saved, reads back as the same record field for field (`profile` included or absent); the same holds for a reply of that form passed through `getCurrentUser`'s transform |
| `AuthUtils.UserJsonFields` | src/utils/auth.ts:101 | the saved text carries `id`, `username`, `email` and `roles` as the record's own values |
| `AuthUtils.UserJsonProfile` | src/utils/auth.ts:101 | the saved text carries `profile` exactly when the record has one, with its value |
| `AuthUtils.SaveUserData` | src/utils/auth.ts:100-102 | writes only the user-data entry, after which `GetUserData` returns the saved record |
| `AuthUtils.GetUserData` | src/utils/auth.ts:107-117 | `None` for an absent or empty entry; a returned record is what some serialised value under that key reads as |
| `AuthUtils.RoleDefaultRoute` | src/utils/auth.ts:128-155 | always one of the five dashboards; admin beats student beats instructor/facilitator beats school_admin, else guardian (empty list included) |
| `AuthUtils.RoleDefaultRouteIsHighestPriority` | src/utils/auth.ts:128-155 | equals an independent fold that keeps the highest-priority route of any single role |
| `AuthUtils.RoleDefaultRouteIgnoresOrder` | src/utils/auth.ts:128-155 | two role lists holding the same roles give the same route (order and repetition do not matter) |
| `AuthUtils.RoleDefaultRoutePermutation` | src/utils/auth.ts:128-155 | any permutation of the role list gives the same route |
| `AuthUtils.HasAuthTokens` | src/utils/auth.ts:160-164 | true exactly when both token entries are present and non-empty |
| `AuthUtils.IsSessionValid` | src/utils/auth.ts:169-174 | false without a non-empty access token, otherwise the negation of the expiry check; a valid session's token decodes |
| `Storage.KeysDistinct` | src/utils/storage.ts:4-9 | the four keys are pairwise distinct |
| `Storage.SharedTokenKeys` | src/utils/storage.ts:5-6 | the token keys are those of the token utilities; the user entries are different keys |
| `Storage.SetAccessToken` | src/utils/storage.ts:16-22 | writes only the access-token entry; the getter then returns it |
| `Storage.GetAccessToken` | src/utils/storage.ts:20-22 | the entry under the access-token key, `None` exactly when it is absent |
| `Storage.RemoveAccessToken` | src/utils/storage.ts:24-26 | removes only that entry; the getter then returns `None` |
| `Storage.SetRefreshToken` | src/utils/storage.ts:29-35 | writes only the refresh-token entry; the getter then returns it |
| `Storage.GetRefreshToken` | src/utils/storage.ts:33-35 | the entry under the refresh-token key, `None` exactly when it is absent |
| `Storage.RemoveRefreshToken` | src/utils/storage.ts:37-39 | removes only that entry; the getter then returns `None` |
| `Storage.SetUser` | src/utils/storage.ts:42-54 | writes only the user entry; `GetUser` then returns the value written (a written `null` reads as absent) |
| `Storage.GetUser` | src/utils/storage.ts:46-54 | `None` exactly when the entry is absent, empty, unparsable or `null`; otherwise the value whose text is stored |
| `Storage.RemoveUser` | src/utils/storage.ts:56-58 | removes only the user entry; `GetUser` then returns `None` |
| `Storage.SetProfile` | src/utils/storage.ts:61-73 | writes only the profile entry; `GetProfile` then returns the value written |
| `Storage.GetProfile` | src/utils/storage.ts:65-73 | `None` exactly when the entry is absent, empty, unparsable or `null`; otherwise the value whose text is stored |
| `Storage.RemoveProfile` | src/utils/storage.ts:75-77 | removes only the profile entry; `GetProfile` then returns `None` |
| `Storage.ClearAll` | src/utils/storage.ts:80-85 | removes exactly the four entries, keeps every other entry, and all four getters then return `None` |
| `AuthStore.RoleNamed` | src/auth.ts:1 | a role read from a name is the role of that name |
| `AuthStore.RoleNameRoundTrip` | src/auth.ts:1 | each of the four role names reads back as its role |
| `AuthStore.AuthJsonRoundTrip` | src/auth.ts:10-17 | a `UserAuth` record, serialised as stored, reads back as the same record (optional `name` included) |
| `AuthStore.AuthJsonFields` | src/auth.ts:11 | the stored text carries `email`, the role's name, and `name` exactly when the record has one |
| `AuthStore.SetAuth` | src/auth.ts:10-12 | writes only the `auth` entry; `GetAuth` then returns the record |
| `AuthStore.GetAuth` | src/auth.ts:14-21 | `None` for an absent or empty entry and for unparsable text; a returned record is what some serialised value reads as |
| `AuthStore.ClearAuth` | src/auth.ts:23-25 | removes only the `auth` entry; `GetAuth` then returns `None` |
| `AuthApi.HandleResponse` | src/api/auth.ts:65-88 | error replies become an `AuthAPIError` carrying the status and a non-empty message: the body's `error`, else `An error occurred`, with `details`; a non-JSON or `null` body uses the status text; ok 204 gives `{}`; other ok replies give the parsed body |
| `AuthApi.BuildRequest` | src/api/auth.ts:101-213 | every request sends the JSON content type; a request has a body exactly when it is not a GET, and an `Authorization` header exactly when it is a GET |
| `AuthApi.SignupBodyFields` | src/api/auth.ts:106-110 | the signup body carries the given `username`, `email` and `password` |
| `AuthApi.LoginBodyFields` | src/api/auth.ts:130-133 | the login body carries the given `email` and `password` |
| `AuthApi.RefreshTokenBodyField` | src/api/auth.ts:169-171 | the refresh body carries the token under `refresh_token` |
| `AuthApi.DecodeBuildRequest` | src/api/auth.ts:101-213 | the server's reading of each endpoint's request (method, `apiUrl` path, JSON body, Bearer token) is exactly the call made |
| `AuthApi.GetPathsDistinct` | src/api/auth.ts:186-207 | the profile path never reads as the users path |
| `AuthApi.Send` | src/api/auth.ts:101-113 | sends the endpoint's request; an unreachable server rethrows the transport error, a reply is mapped by `handleResponse` |
| `AuthUtils.UserFromJson` | src/api/auth.ts:218-224 | the reading of a user record used by `getCurrentUser`'s transform and by `getUserData`: a record exactly when `id`, `username` and `email` are strings and `roles` is missing, falsy or an array of strings, whatever other members the value has; it copies `id`, `username`, `email` and `profile`; a missing or falsy `roles` becomes the empty list, otherwise the roles are the value's |
| `AuthApi.GetCurrentUser` | src/api/auth.ts:203-225 | sends the users request with the Bearer token; errors are rethrown; a user-shaped reply gives the transformed record, and any other reply gives the unexpected-shape error |
| `ApiService.MergeHeaders` | src/services/api.ts:27-33 | the headers are the caller's plus `Content-Type`; caller headers override; the JSON type is used when the caller gives none |
| `ApiService.OutcomeAsWrittenDiffersOnlyOnNullData` | src/services/api.ts:38-62 | the code as written and the intended mapping disagree exactly on a non-204 error reply whose JSON data is `null` |
| `ApiService.NullErrorDataReportedAsNetworkError` | src/services/api.ts:43-60 | a 500 with JSON body `null` is reported as the network error without status; the intended mapping reports `Request failed` with status 500 |
| `ApiService.StatusMissingOnlyWhenUnreachable` | src/services/api.ts:35-62 | in the intended mapping, an error without status arises exactly when no reply came; every error reply with JSON data carries its status |
| `ApiService.AuthHeaders` | src/services/api.ts:65-69 | a single `Authorization` header whose Bearer credential reads back as the token |
| `ApiService.MergedToken` | src/services/api.ts:27-33 | merging the Content-Type into the auth headers keeps the Bearer credential, which still reads back as the token |
| `ApiService.UnauthenticatedRequest` | src/services/api.ts:72-98 | a request made without caller headers carries no `Authorization` header |
| `ApiService.ProfilePath` | src/services/api.ts:108-138 | the id is read back from `/profiles/<id>`, and that path is never the collection path `/profiles` |
| `ApiService.RequestFor` | src/services/api.ts:26-33 | the URL is `baseURL + endpoint`, the body is the caller's, and the headers are the merged ones |
| `ApiService.DecodeEndpointRequest` | src/services/api.ts:72-140 | the server's reading of each of the nine endpoint requests is exactly the call made, arguments included |
| `ApiService.Service.constructor` | src/services/api.ts:18-20 | the base URL is fixed once at construction |
| `ApiService.Service.Request` | src/services/api.ts:22-63 | 204 gives `{}` before `ok` is checked; a non-JSON body rethrows the syntax error; an error reply throws `{error, message, status}` with a non-empty `error`; ok data is returned unchanged; an unreachable server gives the network error (intended mapping; the code as written is `ApiService.OutcomeAsWritten`, see Findings) |
| `ApiService.Service.Call` | src/services/api.ts:72-140 | an endpoint method sends its path and options through `request`; the request decodes back to the call |
| `AuthContext.ErrorMessage` | src/context/AuthContext.tsx:143-145 | an `AuthAPIError`'s own message, otherwise the fixed fallback |
| `AuthContext.AuthProvider.IsAuthenticated` | src/context/AuthContext.tsx:55 | true exactly when a user is held |
| `AuthContext.AuthProvider.constructor` | src/context/AuthContext.tsx:48-50 | no user, loading, no error; the invariant holds |
| `AuthContext.AuthProvider.RefreshSession` | src/context/AuthContext.tsx:72-87 | refresh with the stored refresh token, save the new access token beside it, and fetch and persist the user only when the new token names one |
| `AuthContext.AuthProvider.RestoreExpiredSession` | src/context/AuthContext.tsx:69-98 | with an expired token: no refresh token, a failed refresh, a token naming no user or a failed fetch each clear the three entries and sign out; success stores the new token, the same refresh token and the fetched user |
| `AuthContext.AuthProvider.LoadUserFromStorage` | src/context/AuthContext.tsx:60-114 | a live token restores the stored user with no call and no write; a missing token or user changes nothing; a read fault clears; expired tokens go as in `RestoreExpiredSession`; loading always ends false; the stored user mirrors the held one |
| `AuthContext.AuthProvider.Login` | src/context/AuthContext.tsx:119-151 | tokens are persisted before the fetch; a token without user id throws and keeps the tokens; each failure sets the error message and is rethrown; success holds and persists the fetched user |
| `AuthContext.AuthProvider.Signup` | src/context/AuthContext.tsx:156-173 | only the registration call is made; storage and user are untouched; a failure sets its message and is rethrown |
| `AuthContext.AuthProvider.Logout` | src/context/AuthContext.tsx:178-197 | the server is called only with a stored non-empty refresh token; the three entries are always cleared, user `None`, not loading, no error |
| `AuthContext.AuthProvider.RefreshToken` | src/context/AuthContext.tsx:202-225 | without a refresh token it throws and changes nothing; success re-saves the same refresh token with the new access token; any failure logs out and is rethrown |
| `AuthContext.AuthProvider.ClearError` | src/context/AuthContext.tsx:230-232 | clears the error and nothing else |
| `LegacyAuthContext.UsernameOf` | src/contexts/AuthContext.tsx:67 | the longest prefix of the email without `@`: followed by `@` or the end of the address |
| `LegacyAuthContext.UsernameOfAddress` | src/contexts/AuthContext.tsx:67 | for `name@domain` with no `@` in `name`, the username is `name` |
| `LegacyAuthContext.LoginUserFields` | src/contexts/AuthContext.tsx:65-69 | the login user record has an empty id, the email's local part as username, and the email |
| `LegacyAuthContext.LegacyAuthProvider.constructor` | src/contexts/AuthContext.tsx:16-21 | everything `null`, loading, no error |
| `LegacyAuthContext.LegacyAuthProvider.IsAuthenticated` | src/contexts/AuthContext.tsx:180 | true exactly when a non-empty token and a truthy user are held |
| `LegacyAuthContext.LegacyAuthProvider.Reset` | src/contexts/AuthContext.tsx:83-87 | removes the four entries and nulls every in-memory value |
| `LegacyAuthContext.LegacyAuthProvider.InitAuth` | src/contexts/AuthContext.tsx:24-49 | restores token, refresh token, user and profile only when a token and a truthy user are stored; a read fault sets the error and clears the four entries; loading ends false |
| `LegacyAuthContext.LegacyAuthProvider.Login` | src/contexts/AuthContext.tsx:51-92 | success stores and holds both tokens and the email-derived user; failure clears all four entries and memory and rethrows; `error` is never set |
| `LegacyAuthContext.LegacyAuthProvider.Signup` | src/contexts/AuthContext.tsx:94-106 | registration, then `login` with the same email and password; a registration failure is rethrown with nothing changed |
| `LegacyAuthContext.LegacyAuthProvider.Logout` | src/contexts/AuthContext.tsx:108-124 | the server is called only with an in-memory refresh token; everything is cleared and the router goes to `/login` with replace |
| `LegacyAuthContext.LegacyAuthProvider.RefreshAccessToken` | src/contexts/AuthContext.tsx:126-141 | throws without a refresh token; success replaces only the access token and returns it; failure logs out and rethrows |
| `LegacyAuthContext.LegacyAuthProvider.FetchProfile` | src/contexts/AuthContext.tsx:143-158 | throws exactly when no token is held |
| `LegacyAuthContext.LegacyAuthProvider.UpdateProfile` | src/contexts/AuthContext.tsx:160-173 | throws without a token; success persists, holds and returns the updated profile; failure is rethrown with nothing changed |
| `RoleProtectedRoute.HasAllowedRoleIffShared` | src/components/RoleProtectedRoute.tsx:46 | the scan succeeds exactly when some allowed role is among the user's roles |
| `RoleProtectedRoute.Decide` | src/components/RoleProtectedRoute.tsx:27-55 | spinner while loading; signed out goes to `/login` with replace; children exactly when a shared role exists; otherwise `NotAuthorized` with the user's roles; an empty allow-list never shows children |
| `RoleProtectedRoute.MoreAllowedRolesKeepAccess` | src/components/RoleProtectedRoute.tsx:44-54 | widening the allow-list never takes access away |
| `PublicRoute.Decide` | src/components/PublicRoute.tsx:14-31 | spinner while loading; a signed-in user with a record is redirected to the role default route with replace; otherwise children |
| `PublicRoute.PublicPagesOnlyForGuests` | src/components/PublicRoute.tsx:25-30 | children are never shown to a signed-in user with a record, and every redirect lands on a dashboard |
| `LoginPage.ToLower` | src/pages/Login.tsx:6 | keeps the length and lower-cases each character |
| `LoginPage.ToLowerIdempotent` | src/pages/Login.tsx:6 | lower-casing twice is lower-casing once |
| `LoginPage.ContainsIffOccurs` | src/pages/Login.tsx:7-9 | the substring test holds exactly when the text occurs at some position |
| `LoginPage.InferRoleFromEmail` | src/pages/Login.tsx:5-11 | on the lower-cased address: student markers first, then teacher markers, then school markers, else guardian |
| `LoginPage.InferRoleIgnoresCase` | src/pages/Login.tsx:6 | addresses equal up to case get the same role |
| `LoginPage.InferRoleOfLowered` | src/pages/Login.tsx:6 | lower-casing the address first changes nothing |
| `LoginPage.StudentMarkerWins` | src/pages/Login.tsx:7 | any address containing `student` is a student |
| `LoginPage.RouteByRole` | src/pages/Login.tsx:29-34 | each role's page is `/` followed by its name |
| `LoginPage.RouteByRoleInjective` | src/pages/Login.tsx:29-34 | distinct roles go to distinct pages |
| `LoginPage.LoginForm.constructor` | src/pages/Login.tsx:15-17 | empty fields, no error |
| `LoginPage.LoginForm.SetEmail` | src/pages/Login.tsx:52 | sets the email only |
| `LoginPage.LoginForm.SetPassword` | src/pages/Login.tsx:67 | sets the password only |
| `LoginPage.LoginForm.OnSubmit` | src/pages/Login.tsx:19-36 | an empty field sets the message and does not navigate; otherwise the error is cleared and the router goes to the guessed role's page with replace |
| `SignupPage.Utf16Length` | src/pages/Signup.tsx:27 | a string's JavaScript `length`: between one and two units per character, and equal to the character count exactly when no character lies outside the Basic Multilingual Plane |
| `SignupPage.Validate` | src/pages/Signup.tsx:21-30 | accepted exactly when all fields are non-empty and the password is at least 8 UTF-16 code units long; empty fields are reported before length |
| `SignupPage.AstralPasswordAccepted` | src/pages/Signup.tsx:27 | a password of four characters outside the Basic Multilingual Plane (eight code units) passes the length check |
| `SignupPage.EmptyPasswordIsMissingField` | src/pages/Signup.tsx:22-30 | an empty password yields the missing-fields message |
| `SignupPage.SignupForm.constructor` | src/pages/Signup.tsx:10-14 | empty fields, no error, no success |
| `SignupPage.SignupForm.SetFields` | src/pages/Signup.tsx:68-100 | sets the three fields only |
| `SignupPage.SignupForm.OnSubmit` | src/pages/Signup.tsx:16-46 | resets error and success; invalid input sets its message and calls nothing; valid input calls `signup` once; success sets `success` and schedules the redirect to `/login` with its message; failure shows the error's message |
| `Json.ReadStored` | src/utils/storage.ts:46-54 | absent or empty text gives `None`; a returned value is never `null` and serialises back to the stored text |
| `Json.ReadStoredSerialized` | src/utils/storage.ts:42-54 | text written by the serialiser reads back as the value written |
| `Json.ParseIffSerialize` | src/utils/storage.ts:50 | the parser accepts text exactly when it is the serialisation of the value returned |
| `Json.ParseSerialize` | src/utils/storage.ts:43 | serialising then parsing gives the value back |
| `Json.StringOr` | src/api/auth.ts:72 | a non-empty string property wins, anything else gives the fallback |
| `Json.Get` | src/api/auth.ts:72-73 | a property found is a member of the object with that name; an object with such a member always yields one |
| `Http.BearerToken` | src/api/auth.ts:189 | the token read from a header value is what, prefixed with `Bearer `, gives that value |
| `Http.BearerRoundTrip` | src/services/api.ts:67 | the token put in a Bearer header is the token read from it |

## Left out

- Exceptions thrown by `localStorage` itself are left out, such as a full quota on write. The one modelled case is a fault in the reads at mount time: the `readFault` parameter of the two mount effects.
- The implementation of `jwtDecode` is not part of this model. Decoding is the `decode` parameter, a function from token text to optional claims.
- The clock is the `nowMs` parameter in integer milliseconds. A fractional `exp` claim or fractional current time is not modelled.
- `fetch` and the network are left out. Each remote call's outcome is an input, and each method returns the calls it made.
- The JSON stand-in covers null, booleans, strings, arrays and objects, written compactly.
  - It does not cover numbers, whitespace, or escapes other than `\"` and `\\`.
  - Text stored by another program in another layout reads as unparsable in the model.
  - Every value the model itself stores reads back exactly.
- Truthy non-string values in `error`, `message` or `user_id` are treated as missing. JavaScript would pass a number or object through. The affected members:
  - `Json.StringOr` and `AuthUtils.GetUserIdFromToken`;
  - `ApiService.FailureOf`: its `error` and `message` fields;
  - `AuthApi.HandleResponse`: its message.
- AuthUtils.GetUserData: a stored record of the wrong shape reads as absent, where the source's `as UserData` cast passes it on unchecked. The wrong shape means a non-string `id`, `username` or `email`, or a truthy `roles` that is not an array of strings. A missing or falsy `roles` (`null` included) reads as the empty list, which is how every consumer treats it (`user.roles || []`); the source's record keeps the `null` or `undefined` itself.
- AuthStore.GetAuth: a stored value not shaped like `UserAuth` reads as absent, where the source's cast passes it on.
- AuthApi.GetCurrentUser: a reply that `AuthUtils.UserFromJson` does not read as a user record is reported as a fixed "unexpected response shape" error. The source instead throws a `TypeError` for an ok reply whose body is `null` (at `userData.id`), and otherwise builds a record that copies whatever the reply holds: a numeric `id` or a truthy non-array `roles` is copied as it is, and a member the reply lacks is `undefined`.
- The login and refresh endpoints' typed replies are passed to the session managers as typed outcomes (`TokenPair`, a token string). A reply missing those fields is not modelled.
- `getUserProfile`'s reply record is passed through as JSON, not reshaped. Only its request is modelled (`AuthApi.BuildRequest`).
- The `SyntaxError` message for a success body that is not JSON depends on the JavaScript engine. It is the fixed `AuthApi.SyntaxErrorMessage`.
- The signup page's fallback message is never produced in the model, because every value the provider throws is an `Error`.
- Header names are compared case-sensitively, as object keys are, not case-insensitively as HTTP headers are.
- `LoginPage.ToLower` lower-cases only `A`–`Z`. Unicode case mapping is out of scope.
- React scheduling is left out:
  - state batching and re-rendering;
  - effects running twice;
  - concurrent or interleaved login, refresh and logout.

  Operations run one at a time, each to completion. LegacyAuthContext.LegacyAuthProvider.Logout and RefreshAccessToken read the in-memory refresh token at the time of the call, not the value a stale closure captured.
- The signup page's two-second `setTimeout` redirect is returned as the scheduled `Navigate` value, not run.
- The legacy provider's loading and error screens and its reload button are left out, as presentation. So are `NotAuthorized` and the declarative route table.
- Logging to the console is left out.
- LegacyAuthContext.LegacyAuthProvider.InitAuth requires the provider's initial state, because the source runs it once, on mount.

## Findings

| source | as written | input that shows it | evidently intended | confidence | as-written member | corrected member |
|---|---|---|---|---|---|---|
| src/services/api.ts:43-60 | For an error reply, `request` reads `data.error` and `data.message`. When the JSON body is `null`, that throws a `TypeError`. The `catch` meant for transport failures then reports it as `Network error` / `Unable to connect…` with no status. | `Response(ok=false, status=500, statusText="Internal Server Error", body=null)` | `{error: 'Request failed', message: statusText, status: 500}`, as for any other error body without those members | medium (not executed) | `ApiService.NullErrorDataReportedAsNetworkError` over `ApiService.OutcomeAsWritten` | `ApiService.Service.Request` proved against `ApiService.Outcome`, with `ApiService.StatusMissingOnlyWhenUnreachable` |
