# OAuth2 session logic of the HTTP auth gateway

A Dafny model of `HttpAuthGateway` from `http/auth-gateway.js`. This is the
decorator over the base HTTP gateway that keeps an OAuth2 bearer-token session:

- **Header injection.** `getRequestOptions` adds `Authorization: <prefix><access_token>`
  when a token record is stored under the token key. The defaults are
  `'token'` and `'Bearer '`, following section 2.1 of RFC 6750.
- **401 routing.** `handleError` sends status 401, and only 401, to
  `handle401`. Every other status goes to the base gateway's handler.
- **Refresh.** `handle401` wipes the store and redirects straight away when
  no token is stored. Otherwise it issues the refresh-token grant of section
  6 of RFC 6749: a form-encoded `POST /oauth/token` with `client_id`,
  `grant_type=refresh_token` and `refresh_token`.
- **Success.** The response is merged into the stored record with
  `_.extend`, the record is written back, and the original request is
  replayed once. Falsy data is replayed as `{}`.
- **Failure.** The whole store is cleared, and the page goes to
  `login_url` if that is set, otherwise to `/`. The caller's promise is never
  settled.

Files:

- `js_values.dfy` (module `JsValues`): the JavaScript values the gateway
  handles, JavaScript truthiness, and `String()` of a field value (so
  `'Bearer ' + undefined` is `"Bearer undefined"`). Numbers are the safe
  integers, |n| <= 2^53 - 1, which JavaScript spells in plain decimal. It
  also has the text the query-string encoder writes for a field.
- `auth_gateway.dfy` (module `AuthGateway`): pure specification functions
  for each branch, and their composition over a sequence of error responses
  (`Run`), with the lemmas about whole runs. It also has the class
  `HttpAuthGateway`, with the state the source mutates:
  - the key/value store, as a map from key to token record;
  - the log of requests the gateway issues;
  - the page location it set;
  - the settlement of the caller's promise.

  Each state-changing method ensures that its new state is the
  specification function applied to its old state: `HandleError`,
  `Handle401`, `HandleSuccess` and `HandleFailure` match `HandleErrorStep`,
  `Handle401Step`, `Succeed` and `Fail`. The settlement field is the promise
  of the error being handled. It is pending when that error arrives.

Collaborators enter as parameters:

- The base gateway's request options are the `base` argument of
  `GetRequestOptions`.
- The outcome of the refresh request is `RefreshOutcome`: resolved with
  the parsed response, rejected, or never settled.
- The replayed request's promise outcome is a `Settlement`.
- The base error handler's outcome is the `delegated` settlement.

## Model

| member | source | states |
|---|---|---|
| `AuthGateway.HttpAuthGateway.GetRequestOptions` | http/auth-gateway.js:27-39 | With a record stored under the token key, the options are the base options with `Authorization` set to prefix + the access token's text. Without one, they are exactly the base options. Nothing but that one header changes. |
| `AuthGateway.AuthorizationFor` | http/auth-gateway.js:33-36 | A header is produced exactly when a record is stored under the token key. Its value is the prefix followed by `String()` of that record's `access_token`. |
| `AuthGateway.AuthorizationValue` | http/auth-gateway.js:35 | The header value starts with the prefix. A record without `access_token` gives the prefix followed by `undefined`. |
| `AuthGateway.AuthorizationCarriesAccessToken` | http/auth-gateway.js:35 | `Credential`, the inverse of header building, strips the prefix from the built header. It gives back exactly the access token's text. |
| `JsValues.Get` | http/auth-gateway.js:35 | Reading a field gives `undefined` exactly when the record lacks it, and the stored value otherwise. |
| `JsValues.ValueText` | http/auth-gateway.js:35 | `String()` of a field under `+`. A missing field gives `undefined` and `null` gives `null`. Strings are unchanged, numbers are spelt by `NumberText`, and booleans give `true` or `false`. |
| `JsValues.NumberText` | http/auth-gateway.js:35 | The spelling of a safe integer reads back as that integer. It has at most 17 characters: an optional minus sign and the digits. So it never reaches the exponent form JavaScript uses from 10^21. |
| `JsValues.Decimal` | http/auth-gateway.js:35 | The digits of a number are non-empty, all decimal digits, and have no leading zero unless the number is 0. |
| `JsValues.DecimalRoundTrip` | http/auth-gateway.js:35 | Reading that decimal string back gives the number. |
| `JsValues.DecimalLength` | http/auth-gateway.js:35 | A number below 10^k has at most k digits. |
| `JsValues.FormText` | http/auth-gateway.js:105-109 | The query-string encoder writes a field as `String()` does, except that `null` and `undefined` become the empty string. |
| `JsValues.Truthy` | http/auth-gateway.js:78 | The falsy scalars are exactly `""`, `0`, `false` and `null`. |
| `JsValues.DataTruthy` | http/auth-gateway.js:78 | Falsy request data is exactly: `undefined`, a falsy scalar, or an empty form, since `qs.stringify({})` is `""`. |
| `AuthGateway.HandleErrorStep` | http/auth-gateway.js:44-53 | The caller's promise is pending when the error arrives. Status 401 gives exactly the `handle401` effect. Any other status leaves the store, the request log and the location unchanged, and the base handler settles the promise. A 401 leaves the promise pending unless a stored token was refreshed successfully. |
| `AuthGateway.HttpAuthGateway.HandleError` | http/auth-gateway.js:44-53 | The gateway's new state is `HandleErrorStep` of its old state. |
| `AuthGateway.Handle401Step` | http/auth-gateway.js:71-114 | See the cases below this table. |
| `AuthGateway.HttpAuthGateway.Handle401` | http/auth-gateway.js:71-114 | The gateway's new state is `Handle401Step` of its old state. |
| `AuthGateway.Merge` | http/auth-gateway.js:81 | The merged record has the union of the keys. Response fields win. Fields the response omits, such as `refresh_token`, keep their old values. |
| `AuthGateway.RefreshFields` | http/auth-gateway.js:105-109 | The form has exactly three fields: `client_id` from the config, `grant_type = refresh_token`, and the record's `refresh_token`. The refresh token is written as the encoder writes it, which is empty when it is missing. |
| `AuthGateway.RefreshCall` | http/auth-gateway.js:105-113 | The refresh request is `POST /oauth/token` with `Content-Type: application/x-www-form-urlencoded` and those form fields. |
| `AuthGateway.ReplayData` | http/auth-gateway.js:78 | Replayed data is always truthy. Truthy data is kept unchanged, and falsy data becomes `{}`. |
| `AuthGateway.ReplayCall` | http/auth-gateway.js:85 | The replay has the original method, path and headers, and `data` as `data \|\| {}`. |
| `AuthGateway.Succeed` | http/auth-gateway.js:80-86 | The store gets the merged record under the token key. One replay is appended. The replay's outcome settles the caller's promise. |
| `AuthGateway.HttpAuthGateway.HandleSuccess` | http/auth-gateway.js:80-86 | The gateway's new state is `Succeed` of its old state. |
| `AuthGateway.RedirectTarget` | http/auth-gateway.js:93-97 | The target is `login_url` when that is a non-empty string, otherwise `/`. It is never empty. |
| `AuthGateway.Fail` | http/auth-gateway.js:88-98 | The whole store is emptied and the location is set to the redirect target. The log and the promise are untouched. |
| `AuthGateway.HttpAuthGateway.HandleFailure` | http/auth-gateway.js:88-98 | The gateway's new state is `Fail` of its old state. |
| `AuthGateway.HttpAuthGateway.constructor` | http/auth-gateway.js:15-22 | A new gateway uses the token key `token` and the prefix `Bearer `, with an empty log, no redirect and a pending promise. |
| `AuthGateway.RunKeepsOtherKeys` | http/auth-gateway.js:83-91 | Over any sequence of error responses, a store key other than the token key is never changed. It either keeps its value or is wiped by a clear. |
| `AuthGateway.RunLogAppendOnly` | http/auth-gateway.js:85-113 | Over any sequence of error responses, the request log only grows. Each response adds at most two requests: the refresh and the replay. |
| `AuthGateway.RunKeepsTokenInvariant` | http/auth-gateway.js:81-91 | If the stored record starts with a non-empty access token, it keeps one across any run, provided no refresh response blanks the field. |
| `AuthGateway.ReplayUsesRefreshedToken` | http/auth-gateway.js:81-85 | After a successful refresh, the header for the next request carries the response's access token, or the old one if the response omitted it. |

The cases of `Handle401Step`:

- **No stored token.** No request is issued, the store is emptied, the page
  is redirected, and the promise is untouched.
- **Token stored.** Exactly one `/oauth/token` request is issued first.
- **Refresh succeeded.** The record under the same key becomes the merge,
  and every other key is unchanged. The original call is replayed once, and
  its outcome settles the promise.
- **Refresh failed.** The store is emptied and the page is redirected.
  Nothing is replayed and the promise is untouched.
- **Refresh never settles.** Only the refresh request happens.

## Left out

- Transport, promises and the base gateway. `apiRequest`, the base
  `getRequestOptions` and the base `handleError` are not part of this model.
  Their results are parameters.
- Retries. A replay that itself gets a 401 re-enters `handle401` through
  `apiRequest`. The model covers one `handle401` step, takes the replay's
  settlement as given, and claims no bound on repeated refreshes.
- Form encoding. The percent-encoding and joining of `querystring.stringify`
  are not modelled. The refresh body is its field map, with each value
  written as the encoder writes a primitive.
- Store and navigation. The `store` library and `window.location` are
  modelled only as a map and a location field. A stored value is always an
  object, so it is always truthy.
- Value types. Field values are strings, safe integers (|n| <= 2^53 - 1),
  booleans and `null`. Fractional numbers, larger numbers (which JavaScript
  spells in exponent form from 10^21), and nested objects or arrays in a
  token record are not modelled.
- Concurrency. There is no coalescing of refreshes across concurrent 401s,
  because the source does none. Interleavings between the read at line 76
  and the write at line 83 are not modelled: one 401 is handled at a time.
- Expiry. `expires_in` is never read by the source, and there is no
  time-based expiry.
- The base handler at line 52 is called without binding `this`, and line 89
  reads the config through `getConfig()` while line 106 uses `this.config`.
  Both are modelled as "the base handler" and the one static `Config`.
- The model follows the code in three places:
  - The replay sends `data || {}`.
  - A failed refresh never settles the caller's promise.
  - Nothing stops a record from holding an empty access token, so
    `RunKeepsTokenInvariant` holds only under its condition on refresh
    responses.
