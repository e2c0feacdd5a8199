# Token reducer and authenticated HTTP interceptor

A Dafny model of the client-side authentication logic of the lumX application
boilerplate:

- the token store's reducer (`tokenReducerFunction`), a pure state machine over
  `{needed, value}` driven by `TOKEN_RECEIVED`, `TOKEN_NEEDED`, `TOKEN_CLEARED`
  and any other action;
- `HttpInterceptorService`, which wraps Angular's `Http` service. It rebuilds every
  request's options with `Content-Type: application/json`. It adds
  `Authorization: Bearer <token>` (the header form of section 2.1 of RFC 6750) only
  when the token state allows it. On a 401 Unauthorized (section 15.5.2 of RFC 9110)
  it runs a bounded refresh-and-retry protocol, using one login-attempt counter shared
  by all requests.

Modules:

- `Wrappers`: `Option`, standing for JavaScript's `undefined`.
- `TokenReducer`: `TokenState`, `Action`, `InitialState`, `Reduce` and its lemmas.
- `HttpOptions`: the header rule (`BearerAllowed`) and the option builder on
  values (`BuildOptions`), with its lemmas.
- `InterceptProtocol`: the whole protocol as pure functions over an explicit
  `World`. The world holds the counter, the token state, a scripted transport and
  a log of every transport call. The functions are `Send` (a verb wrapper),
  `Handle` (`intercept`) and `Recover` (its 401 branch), with scenario lemmas.
- `HttpInterceptor`: the imperative form. `HttpInterceptorService` is a class with
  the `loginAttempts` field and one method per source method. `TokenService` holds
  the store state. `Http` is a scripted stand-in for Angular's `Http`.
  `RequestOptions` is the mutable options object that `getRequestOptionArgs` changes
  in place. Every method of the service is proved to be exactly the corresponding
  protocol function: outcome, new counter, token state, transport log and the
  caller's options object.

The transport is a script: a sequence of replies, one consumed per call. A reply
is `None` when the verb call yields no observable. An exhausted script also
yields none. Recursion terminates because every retry consumes script.

Assumptions:

- `TokenService` and `UtilsService` are not part of this model.
- `refreshToken()` and `setToken(t)` are taken to dispatch `TOKEN_NEEDED` and
  `TOKEN_RECEIVED(t)`.
- `isUndefinedOrEmpty(options)` is taken to hold of `undefined` and of an options
  object with no field set.
- `isDefinedAndFilled(value)` is taken to mean a non-empty string.

Three consequences of the code are worth stating. The doc comments at
src/client/app/core/services/http-interceptor.service.ts:16-21 and :24-27 speak
of five login attempts "for the request"; the code counts differently:

- `request()` passes `undefined` as intercept's url, so its synthetic 404 carries
  no url (`InterceptUrl`).
- The refresh GET goes through the interceptor itself. With a transport that always
  answers 401, the refresh requests also spend attempts. A fresh interceptor
  therefore makes exactly six transport calls: the original request and five
  refreshes. The surfacing 401 is the sixth call's, which is the last refresh.
- The counter is never reset on success. Recoveries accumulate across requests,
  and a 401 that arrives once five have been spent fails without a refresh.

## Model

| member | source | states |
|---|---|---|
| TokenReducer.Reduce | src/client/app/core/reducers/token.reducer.ts:49-68 | the reducer itself; no contract of its own, specified by the lemmas below |
| TokenReducer.InitialState | src/client/app/core/reducers/token.reducer.ts:36-39 | the initial state constant; its fields are stated by `InitialStateHasNoToken` |
| TokenReducer.InitialStateHasNoToken | src/client/app/core/reducers/token.reducer.ts:36-39 | the initial state has `needed = false` and no value |
| TokenReducer.ReceivedOverwrites | src/client/app/core/reducers/token.reducer.ts:51-55 | `TOKEN_RECEIVED(p)` gives `needed = false`, `value = p`, the same result from any prior state |
| TokenReducer.NeededKeepsValue | src/client/app/core/reducers/token.reducer.ts:57-60 | `TOKEN_NEEDED` sets `needed = true` and keeps the stored value |
| TokenReducer.ClearedEmpties | src/client/app/core/reducers/token.reducer.ts:62-63 | `TOKEN_CLEARED` gives the empty state: both fields absent |
| TokenReducer.UnrelatedIsIdentity | src/client/app/core/reducers/token.reducer.ts:65-66 | any other action returns the state unchanged |
| TokenReducer.ReduceIdempotent | src/client/app/core/reducers/token.reducer.ts:50-67 | applying any action twice equals applying it once |
| HttpOptions.NoBearerAfterNeededOrCleared | src/client/app/core/reducers/token.reducer.ts:57-63 | options built right after `TOKEN_NEEDED` or `TOKEN_CLEARED` carry no Authorization header |
| HttpOptions.NoBearerInitially | src/client/app/core/reducers/token.reducer.ts:36-39 | options built in the initial state carry no Authorization header |
| HttpOptions.BearerAllowed | src/client/app/core/services/http-interceptor.service.ts:88-89 | the header condition (state defined, value a non-empty string, `needed` defined and false); no contract of its own, used by the `BuildOptions` contract |
| HttpOptions.BuildOptions | src/client/app/core/services/http-interceptor.service.ts:79-99 | built options hold exactly one `Content-Type: application/json`; an Authorization header is present iff the state is defined, its value non-empty and `needed` defined and false, and it is then exactly `Bearer <value>`; no other header |
| HttpOptions.Values | src/client/app/core/services/http-interceptor.service.ts:84-90 | the lookup of header values by name (the view `Headers.getAll` gives), used to observe the headers appended there: non-empty iff some header has that name, never longer than the header list |
| HttpOptions.BearerAfterReceived | src/client/app/core/services/http-interceptor.service.ts:87-92 | after a non-empty token is received, it is the single bearer credential sent |
| HttpOptions.CallerHeadersDiscarded | src/client/app/core/services/http-interceptor.service.ts:84-85 | the built headers do not depend on the caller's options or on the verb |
| HttpOptions.BodyAndOtherFields | src/client/app/core/services/http-interceptor.service.ts:94-97 | only a GET sets the body to `''`; other verbs keep the caller's body; every other option field is the caller's |
| HttpOptions.BuildAbsorbs | src/client/app/core/services/http-interceptor.service.ts:79-99 | re-building already built options under the same token equals one build (GET at either step blanks the body) |
| HttpOptions.BuildIdempotent | src/client/app/core/services/http-interceptor.service.ts:79-99 | the builder is idempotent under a fixed token state: a retry never duplicates headers |
| InterceptProtocol.RetryRequest | src/client/app/core/services/http-interceptor.service.ts:151-158 | the retry keeps verb and url, resends the body for patch/post/put and the original request for `request()`, and is the original request whenever that came from a wrapper |
| InterceptProtocol.Send | src/client/app/core/services/http-interceptor.service.ts:127-168 | a request extends the transport log by at least one call, consumes script from the front, sends on every call exactly one `application/json` Content-Type, at most one Authorization value and no other header, keeps the counter within 0..5, and lowers the counter only by a reset to 0 that ends in a 401 failure; conversely a 401 reaches the caller only with the counter back at 0 |
| InterceptProtocol.Handle | src/client/app/core/services/http-interceptor.service.ts:127-168 | the invariants of `Send` apart from making a call (intercept makes none on a missing call, a passed-through reply or a 401 at the bound): the log only grows, script is consumed from the front, every call has proper headers, the counter stays within 0..5 and is lowered only by a reset to 0 that surfaces a 401, and a 401 reaches the caller only with the counter at 0 |
| InterceptProtocol.Recover | src/client/app/core/services/http-interceptor.service.ts:140-159 | a recovery makes at least one call, keeps the counter within 0..5, and ends with a counter not above the start only through a reset that surfaces a 401; a 401 it surfaces always comes with the counter at 0 |
| InterceptProtocol.MissingCallIsNotFound | src/client/app/core/services/http-interceptor.service.ts:129-137 | a call that yields no observable fails with status 404, `Not Found` and intercept's url; counter and token untouched |
| InterceptProtocol.OtherOutcomePassesThrough | src/client/app/core/services/http-interceptor.service.ts:139-168 | a success or a non-401 failure is returned as it came after one call; no refresh, counter and token untouched |
| InterceptProtocol.FirstCallUsesCurrentToken | src/client/app/core/services/http-interceptor.service.ts:65-67 | every request first goes out with options built from the current token state |
| InterceptProtocol.RefreshFollowsUnauthorized | src/client/app/core/services/http-interceptor.service.ts:141-146 | on a 401 below the bound the next call is the GET of `/assets/token.json`, without an Authorization header |
| InterceptProtocol.RecoverOnceThenSucceed | src/client/app/core/services/http-interceptor.service.ts:140-159 | 401, then a token, then a success: the success is returned, the counter is up by exactly one, the token is stored, three calls are made, and the retry resends the same verb, url and body with `Bearer <token>` |
| InterceptProtocol.SendConsumesFront | src/client/app/core/services/http-interceptor.service.ts:127-168 | what is left of the script after a request is a tail of the script before it |
| InterceptProtocol.GiveUpAtBound | src/client/app/core/services/http-interceptor.service.ts:141-168 | with five attempts spent, a 401 is not recovered: that same 401 reaches the caller, the counter is reset to 0, the token is untouched and no further call is made |
| InterceptProtocol.FailedRefreshEndsRequest | src/client/app/core/services/http-interceptor.service.ts:140-148 | after a 401 below the bound, a failing token GET is the end of the request: its outcome and world are the request's |
| InterceptProtocol.SucceededRefreshRetries | src/client/app/core/services/http-interceptor.service.ts:146-158 | after a 401 below the bound, a succeeding token GET leads to the retry of `RetryRequest(req)` with options rebuilt under the stored token, whose outcome and world are the request's |
| InterceptProtocol.RefreshFailureSurfaces | src/client/app/core/services/http-interceptor.service.ts:146-148 | when the token GET fails with a non-401 (or yields no call), that failure surfaces, the counter stays up by one, the token stays needed, and nothing is retried |
| InterceptProtocol.RetryResendsRequest | src/client/app/core/services/http-interceptor.service.ts:148-158 | once the token GET succeeds, the third call re-issues the same verb, url and body whatever its reply, carrying `Bearer <token>` when the received token is non-empty |
| InterceptProtocol.AlwaysUnauthorized | src/client/app/core/services/http-interceptor.service.ts:141-161 | against an always-401 transport, `6 - k` calls are made from `k` spent attempts; the last 401 surfaces and the counter is back to 0 |
| InterceptProtocol.SixCallsFromFresh | src/client/app/core/services/http-interceptor.service.ts:31 | from the initial counter of 0, an always-401 transport sees exactly six calls |
| HttpInterceptor.TokenService.constructor | src/client/app/core/reducers/token.reducer.ts:36-39 | the store starts in the initial state |
| HttpInterceptor.TokenService.RefreshToken | src/client/app/core/services/http-interceptor.service.ts:144 | the store applies `TOKEN_NEEDED` |
| HttpInterceptor.TokenService.SetToken | src/client/app/core/services/http-interceptor.service.ts:149 | the store applies `TOKEN_RECEIVED(token)` |
| HttpInterceptor.RequestOptions.constructor | src/client/app/core/services/http-interceptor.service.ts:80-82 | a fresh options object has no field set |
| HttpInterceptor.HttpInterceptorService.constructor | src/client/app/core/services/http-interceptor.service.ts:31-41 | the counter starts at 0 and the collaborators are the given ones |
| HttpInterceptor.HttpInterceptorService.GetRequestOptionArgs | src/client/app/core/services/http-interceptor.service.ts:79-100 | the returned object holds `BuildOptions` of the caller's options under the current token; it is the caller's object, changed in place, unless that was undefined or empty (then a fresh one, the caller's untouched) |
| HttpInterceptor.HttpInterceptorService.Dispatch | src/client/app/core/services/http-interceptor.service.ts:65-67 | a wrapper's body (build options, call the transport, intercept) behaves exactly as `Send`; a counter within 0..5 stays within 0..5 |
| HttpInterceptor.HttpInterceptorService.Intercept | src/client/app/core/services/http-interceptor.service.ts:127-170 | behaves exactly as `Handle`: outcome, counter, token state, transport log and caller's options; a counter within 0..5 stays within 0..5 |
| HttpInterceptor.HttpInterceptorService.Recover | src/client/app/core/services/http-interceptor.service.ts:140-159 | behaves exactly as the protocol's `Recover`; the counter ends within 0..5 |
| HttpInterceptor.HttpInterceptorService.Redispatch | src/client/app/core/services/http-interceptor.service.ts:151-158 | the verb-named dispatch behaves as `Send` of `RetryRequest`; a counter within 0..5 stays within 0..5 |
| HttpInterceptor.HttpInterceptorService.Delete | src/client/app/core/services/http-interceptor.service.ts:52-55 | behaves as `Send` of a DELETE without body; a counter within 0..5 stays within 0..5 |
| HttpInterceptor.HttpInterceptorService.Get | src/client/app/core/services/http-interceptor.service.ts:65-68 | behaves as `Send` of a GET without body; a counter within 0..5 stays within 0..5 |
| HttpInterceptor.HttpInterceptorService.Head | src/client/app/core/services/http-interceptor.service.ts:110-113 | behaves as `Send` of a HEAD without body; a counter within 0..5 stays within 0..5 |
| HttpInterceptor.HttpInterceptorService.Options | src/client/app/core/services/http-interceptor.service.ts:180-183 | behaves as `Send` of an OPTIONS without body; a counter within 0..5 stays within 0..5 |
| HttpInterceptor.HttpInterceptorService.Patch | src/client/app/core/services/http-interceptor.service.ts:194-197 | behaves as `Send` of a PATCH with the body; a counter within 0..5 stays within 0..5 |
| HttpInterceptor.HttpInterceptorService.Post | src/client/app/core/services/http-interceptor.service.ts:208-211 | behaves as `Send` of a POST with the body; a counter within 0..5 stays within 0..5 |
| HttpInterceptor.HttpInterceptorService.Put | src/client/app/core/services/http-interceptor.service.ts:222-225 | behaves as `Send` of a PUT with the body; a counter within 0..5 stays within 0..5 |
| HttpInterceptor.HttpInterceptorService.Request | src/client/app/core/services/http-interceptor.service.ts:235-238 | behaves as `Send` of the generic request, whose intercept url is undefined; a counter within 0..5 stays within 0..5 |

## Left out

- Observables: laziness, multiple subscriptions and cancellation are not modelled. Each request is one synchronous call returning its single terminal event.
- Concurrency: requests run one after another. Contention of concurrent requests on the shared counter is not modelled.
- Token subscription: `getRequestOptionArgs` reads the token state once. The source's subscription is never torn down, so later token emissions could append further headers to an options object that was already built. That effect is not modelled.
- `console.error` on a non-401 failure is left out (logging only).
- Response parsing: `response.json()` is modelled as a parsed `Body`. Either it is the token message `{token}`, or it has no `token` field (`OtherBody`), in which case `setToken(undefined)` follows; any JSON other than an object, apart from `null`, has no `token` field and is this case. Two bodies make the code fail and are not modelled: a body that is not JSON, where parsing throws, and JSON `null`, where reading `tokenMessage.token` (line 149) throws. A `token` field that is not a string is passed to `setToken` unchecked; `TokenMessage` carries only strings, so the model does not represent it.
- `Request` objects: the argument of `request()` is modelled by its URL string. A `Request` object's own method and headers are not modelled.
- Header names are compared exactly. Angular's case-insensitive header lookup is not modelled.
- The reducer's "never modifies its input" holds by construction on immutable values, so no member states it.
- `TokenService`, `UtilsService`, the action-type constants and `Http` itself are not part of this model. They appear only through the stated assumptions and the scripted transport.
