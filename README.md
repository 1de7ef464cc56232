# Abuse-moderation client: navigation guard and API session contract

This project models the decision logic of the abuse-moderation single-page
client. It has two parts.

- **The router** (`Router`): the static table of four routed views and the
  `beforeEach` guard. The guard writes the page title on every navigation.
  It then reads the session (token and user record) from local storage and
  makes exactly one decision: let the navigation through, or send it to
  `/login`, `/mod-dashboard` or `/feed`.
- **The API client** (`Api`): the request interceptor that attaches
  `Authorization: Bearer <token>`, and the response interceptor that ends the
  session and sends the browser to `/login` on a 401. It also covers the
  pipeline one call goes through (`Send`), the query-parameter builders, and
  the request (verb, path, query parameters, body) that each endpoint wrapper
  of `authAPI`, `userAPI`, `moderatorAPI` and `adminAPI` builds.

Supporting modules:

- `Web`: the browser state both parts share. It holds `localStorage` as a
  `map<string, string>`, `document.title` and `window.location.href`, as
  fields of a `Browser` class.
- `Js`: the JavaScript semantics the code relies on. These are truthiness
  and the string conversion that template literals apply to ids.
- `Wrappers`: `Option`.

The guard's decision is the pure function `Router.Decide`. It is proved equal
to an independent two-rule statement (`Router.MayEnter`):

- a protected route needs a session whose role fits the route;
- a visitors' page needs there to be no session.

When a navigation is refused, the target is `/login` without a session and
the role's landing page with one. vue-router treats `next(path)` as a new
navigation. `Router.Settle` follows that chain of guard runs. It is proved
that:

- without a session, or with role `user` or `moderator`, every navigation
  ends within two runs;
- with any other role (or none), a refused navigation is sent to `/feed`
  forever.

`JSON.parse` of the stored user record has no `try` around it. A record that
does not parse therefore throws out of the guard and aborts the navigation,
after the title has been written. There is no fallback to "no session".
`Router.BeforeEach` models this as the `Aborted` result.

vue-router's default matcher ignores case and accepts one trailing slash: `/Feed`
and `/feed/` reach the guard with the feed's meta. The guard's own test for the
login and registration pages compares `to.path` exactly, so a signed-in visit
to `/Login` is let through. `Router.MetaOf` and
`Router.MatchingIgnoresCaseAndTrailingSlash` state both facts.

What comes from outside is a parameter:

- `JSON.parse` of the stored user is a function `string -> ParsedUser`. It
  either throws, or yields a falsy value, or yields a user with an optional
  role.
- The HTTP transport is a function from the full URL, the request and its headers to a reply. As axios does by default, `Api.Send` turns a response whose status is not 2xx into an error before the response interceptor runs.

## Model

| member | source | states |
|---|---|---|
| `Js.Truthy` | vue_frontend/src/services/api.js:114 | a value is truthy exactly when it is none of undefined, null, false, 0, "" |
| `Js.Present` | vue_frontend/src/router/index.js:46-52 | a stored item is truthy exactly when the key is there and its string is not empty |
| `Js.NatToString` | vue_frontend/src/services/api.js:79 | the rendering of a number in a path is a non-empty string of decimal digits without leading zeros |
| `Js.DecimalRoundTrip` | vue_frontend/src/services/api.js:79 | reading the decimal rendering of a natural number back gives that number |
| `Js.IntToString` | vue_frontend/src/services/api.js:79 | `String(i)` is a minus sign exactly for negative i, followed by decimal digits without leading zeros that read back to |i| |
| `Js.Render` | vue_frontend/src/services/api.js:79 | `${v}` is a string unchanged, a number as `String(n)` (reading back to n when n >= 0), and `true`, `false`, `null`, `undefined` spelled out |
| `Js.OrDefault` | vue_frontend/src/services/api.js:146 | a default parameter replaces exactly an `undefined` argument and keeps every other one, `null` included |
| `Web.ClearedSessionConsistent` | vue_frontend/src/services/api.js:29-33 | removing both session keys leaves storage with neither key, the token/user pairing intact and every other item unchanged |
| `Web.Browser.GetItem` | vue_frontend/src/router/index.js:46-47 | `getItem` yields the stored string exactly when the key is present |
| `Web.Browser.RemoveItem` | vue_frontend/src/services/api.js:30-31 | `removeItem` drops that key and keeps every other item |
| `Router.Find` | vue_frontend/src/router/index.js:9-38 | the lookup returns a table record that matches the path (ignoring case, one trailing slash allowed), and nothing exactly when no record matches |
| `Router.MetaOf` | vue_frontend/src/router/index.js:9-38 | the guard's `to.meta` is the meta of the record that matches the path, and empty when no record matches |
| `Router.Resolve` | vue_frontend/src/router/index.js:42 | the guard's `to` keeps the path as navigated to, not lower-cased, with the matched record's meta |
| `Router.RouteTable` | vue_frontend/src/router/index.js:14-38 | a path matching `/login`, `/register`, `/feed` or `/mod-dashboard` gets that record's meta as declared (only the last two require a session, for roles `user` and `moderator`), and any other path no meta |
| `Router.DisjointRecords` | vue_frontend/src/router/index.js:14-38 | no path matches two records of the table |
| `Router.RoutedPathsMatch` | vue_frontend/src/router/index.js:15-33 | each record's own path matches that record |
| `Router.VariantSpellings` | vue_frontend/src/router/index.js:51-78 | every spelling matching `/feed` or `/mod-dashboard` sends a visitor without a session to `/login`; every spelling of `/login` or `/register` other than the exact one is allowed with a session |
| `Router.MatchingIgnoresCaseAndTrailingSlash` | vue_frontend/src/router/index.js:51-80 | `/Feed` and `/feed/` without a session redirect to `/login`; a signed-in visit to `/Login` is allowed, since line 71 compares `to.path` exactly |
| `Router.TitleOf` | vue_frontend/src/router/index.js:44 | the title is never empty; it is the route's own title when that is truthy, else `Abuse Moderation System` |
| `Router.TableTitles` | vue_frontend/src/router/index.js:15-36 | each path matching a routed view gets its declared title and every other location the default title |
| `Router.Decide` | vue_frontend/src/router/index.js:51-80 | the guard allows exactly when MayEnter holds, and otherwise redirects to the role's landing page with a session and to the login page without one |
| `Router.SignedOutGoesToLogin` | vue_frontend/src/router/index.js:51-56 | a protected route with a falsy token or no user record redirects to `/login` |
| `Router.WrongRoleGoesHome` | vue_frontend/src/router/index.js:59-66 | a protected route whose truthy role differs from the user's redirects to `/mod-dashboard` for a moderator and to `/feed` for anybody else |
| `Router.SignedInSkipsGuestPages` | vue_frontend/src/router/index.js:71-78 | a signed-in user opening `/login` or `/register` is redirected to their role's landing page |
| `Router.OtherwiseAllowed` | vue_frontend/src/router/index.js:80 | every navigation outside the three redirect cases is allowed, including a matching role and a signed-out visit to a guest page |
| `Router.BeforeEach` | vue_frontend/src/router/index.js:42-81 | the title is written first on every navigation; storage and location are untouched; a stored user that does not parse aborts the navigation; otherwise exactly one decision is taken on the stored session |
| `Router.LoginTargetAllowed` | vue_frontend/src/router/index.js:15-18 | without a session, the `/login` redirect target is itself allowed |
| `Router.RoleHomeAllowed` | vue_frontend/src/router/index.js:26-36 | with a session of role `user` or `moderator`, the role's landing page is allowed |
| `Router.FeedRejectsOtherRoles` | vue_frontend/src/router/index.js:59-66 | with a session of any other role, the landing page is `/feed` and `/feed` redirects to `/feed` again |
| `Router.OtherRolesGoToFeed` | vue_frontend/src/router/index.js:59-78 | with a session of any other role, every redirect the guard makes goes to `/feed` |
| `Router.Settle` | vue_frontend/src/router/index.js:54-80 | following the guard's redirects, a navigation that ends does so on a location the guard allows |
| `Router.KnownSessionsSettle` | vue_frontend/src/router/index.js:51-80 | without a session or with a known role, any navigation ends within two guard runs, on its destination or on the first redirect target |
| `Router.OtherRolesNeverSettle` | vue_frontend/src/router/index.js:59-66 | with any other role, a refused navigation never ends, whatever the number of guard runs |
| `Api.UrlOf` | vue_frontend/src/services/api.js:3-9 | every request goes to the fixed base URL followed by the wrapper's path |
| `Api.BearerRoundTrip` | vue_frontend/src/services/api.js:16 | the token can be read back from the `Bearer` header built from it |
| `Api.WithAuth` | vue_frontend/src/services/api.js:14-18 | with a truthy token, `Authorization` carries exactly that token as a bearer credential; with none, the headers are unchanged; no other header ever changes |
| `Api.OnRequest` | vue_frontend/src/services/api.js:12-19 | the interceptor updates the config's headers in place as WithAuth says, leaves the rest of the config alone and returns the same config |
| `Api.OnRequestError` | vue_frontend/src/services/api.js:20-22 | a request error is rejected unchanged |
| `Api.OnResponse` | vue_frontend/src/services/api.js:27 | a successful response passes through unchanged |
| `Api.Unauthorized` | vue_frontend/src/services/api.js:29 | an error without a response is never a 401; with one, exactly when its status is 401 |
| `Api.CheckStatus` | vue_frontend/src/services/api.js:6-9 | the default axios instance returns a 2xx response unchanged and resolves nothing else; any other status becomes an error carrying that response, with the status kept |
| `Api.OnResponseError` | vue_frontend/src/services/api.js:28-35 | on a 401 both session keys are removed and the location becomes `/login`; any other error or a missing response changes nothing; the error is always re-raised; a consistent session stays consistent |
| `Api.Send` | vue_frontend/src/services/api.js:12-36 | any call goes to the full URL with the bearer token stored at call time; only a 2xx response resolves; any reply carrying status 401, from any endpoint, ends the session and goes to `/login`; every other failure is rejected with storage and location untouched |
| `Api.FilterParams` | vue_frontend/src/services/api.js:114 | the filter is `{key: v}` exactly when v is truthy, else empty (`user_id` at lines 114 and 135, `username` at line 141) |
| `Api.IdPathRoundTrip` | vue_frontend/src/services/api.js:79 | the interpolated id is exactly what lies between the path's fixed prefix and suffix |
| `Api.NumericIdInPath` | vue_frontend/src/services/api.js:155 | a non-negative numeric id reads back from its path as the same number |
| `Api.DeleteOwnPost` | vue_frontend/src/services/api.js:78-83 | DELETE `/api/posts/<id>` with body `{reason}` |
| `Api.MarkDeletedPostViewed` | vue_frontend/src/services/api.js:90-93 | PUT `/api/user/deleted-posts/<id>/mark-viewed` with no body |
| `Api.GetAllPosts` | vue_frontend/src/services/api.js:113-117 | GET `/api/moderator/all-posts` with `{user_id}` for a truthy id and no filter otherwise, including the default `null` |
| `Api.GetPostForReview` | vue_frontend/src/services/api.js:124-127 | GET `/api/moderator/posts/<id>/review` |
| `Api.GetPostComments` | vue_frontend/src/services/api.js:129-132 | GET `/api/moderator/posts/<id>/view-comments` |
| `Api.GetFlaggedComments` | vue_frontend/src/services/api.js:134-138 | GET `/api/moderator/flagged-comments` with `{user_id}` for a truthy id and no filter otherwise |
| `Api.GetStatistics` | vue_frontend/src/services/api.js:140-144 | GET `/api/moderator/statistics` with `{username}` for a truthy name and no filter otherwise |
| `Api.FalsyFiltersSendNothing` | vue_frontend/src/services/api.js:113-115 | a falsy, missing or zero filter sends the same request as no filter at all |
| `Api.ReviewComment` | vue_frontend/src/services/api.js:146-152 | PUT `/api/moderator/comments/<id>/review` with body exactly `{action, reason}`, `reason` defaulting to `''` only when it is undefined |
| `Api.DeletePost` | vue_frontend/src/services/api.js:154-159 | DELETE `/api/moderator/posts/<id>` with body `{reason}` |
| `Api.DeleteUser` | vue_frontend/src/services/api.js:161-166 | DELETE `/api/moderator/users/<id>` with body `{reason}` |
| `Api.SuspendModerator` | vue_frontend/src/services/api.js:176-179 | PUT `/api/admin/moderators/<id>/suspend` with the caller's data as body |
| `Api.UnsuspendModerator` | vue_frontend/src/services/api.js:181-184 | PUT `/api/admin/moderators/<id>/unsuspend` with no body |
| `Api.DeleteModerator` | vue_frontend/src/services/api.js:186-191 | DELETE `/api/admin/moderators/<id>` with the caller's data as body |
| `Api.FixedEndpoints` | vue_frontend/src/services/api.js:58-122 | each argument-less wrapper sends its own verb and path with no parameters and no body |
| `Api.ForwardedBodies` | vue_frontend/src/services/api.js:40-76 | login, register, createPost and createComment POST the caller's record unchanged |

## Left out

- The axios transport, the HTTP call, the 10-second timeout, async/await and promise chaining are I/O and library behaviour. The transport is a parameter of `Api.Send`, and the wrappers return the request they would send, not `response.data`.
- The `console.error` in `register` is diagnostic logging only.
- `JSON.parse` of the stored user is a parameter of `Router.BeforeEach`. The model keeps the code's behaviour: there is no fallback, and a malformed record aborts the navigation.
- The `/` to `/login` redirect record and resolving the view components are done by vue-router before the guard runs. A path no record matches gets empty meta (`Router.NoMeta`). The path that `Router.Resolve`, `Router.Settle` and `Router.KnownSessionsSettle` take is the one after that redirect: a navigation to `/` reaches the guard as `/login`. Given `/` itself, the model treats it as an unmatched location, a case no real navigation produces.
- Router.MetaOf: matching folds ASCII letters only and does not decode percent-encoded characters in the path.
- The guard's `from` argument is never read.
- `Router.Settle` is the guard re-run that vue-router performs after each `next(path)`. Its `fuel` bound stands for vue-router's detection of endless redirects, and the model does not fix the bound's value.
- JavaScript values: numbers are unbounded integers. Fractions, NaN and -0 are not modelled, and neither is the exponent form `String` uses from 10^21 on (`1e+21`) or the loss of precision above 2^53. The user record is reduced to its optional string `role`: a missing or non-string role never equals a route's role.
- Js.IntToString: every integer is rendered as plain decimal digits; the exponent form JavaScript uses from 10^21 on and the rounding of integers above 2^53 are not modelled.
- Header names are compared exactly. The case-insensitive matching that axios applies to header names is not modelled.
- Dropping `undefined` fields when a body or the parameters are serialised is done by axios and is not modelled.
- The custom alert dialog (`vue_frontend/src/utils/customAlert.js`) is DOM construction and event handling. It is not part of this model.
- The application bootstrap (`vue_frontend/src/main.js`) holds no logic. It is not part of this model.
- The login and registration views that write the session to storage are not part of this model.
