/**
 * The interception protocol of HttpInterceptorService
 * (src/client/app/core/services/http-interceptor.service.ts) as pure functions
 * over an explicit world: the shared login-attempt counter, the token store's
 * state and a scripted transport. Module HttpInterceptor proves its class
 * methods equal to these functions.
 */
module InterceptProtocol {
  import opened Wrappers
  import opened TokenReducer
  import opened HttpOptions

  /** The verbs of the interceptor's public wrappers; REQUEST is the generic
      `request(url | Request)` form. */
  datatype Verb = DELETE | GET | HEAD | OPTIONS | PATCH | POST | PUT | REQUEST

  /** A request as a verb wrapper receives it. For REQUEST, `url` is the
      request target that the wrapper forwards as intercept's `request`. */
  datatype Req = Req(verb: Verb, url: string, body: Option<string>)

  /** What a response body parses to: the token message `{token: string}`,
      or anything else (its `token` field is then undefined). */
  datatype Body = TokenMessage(token: string) | OtherBody

  datatype Response = Response(status: int, statusText: string, url: Option<string>, body: Body)

  /** The single terminal event of a request's observable. */
  datatype Outcome = Success(response: Response) | Failure(error: Response)

  /** One call made on the underlying Http service. */
  datatype Call = Call(req: Req, options: OptionArgs)

  /** The state one interceptor instance works on. A script entry is what
      the Http service's verb method yields for the next call: None when it
      yields no observable. An exhausted script also yields none. */
  datatype World = World(attempts: nat, token: TokenState, script: seq<Option<Outcome>>, log: seq<Call>)

  /** The result of a request: the terminal event, the new world, and the
      value of the caller's options object afterwards (it is changed in place). */
  datatype Sent = Sent(outcome: Outcome, world: World, callerOptions: Option<OptionArgs>)

  const Unauthorized := 401
  const MaxLoginAttempts := 5
  const TokenUrl := "/assets/token.json"

  /** The refresh request: `get('/assets/token.json')` without options. */
  const RefreshReq := Req(GET, TokenUrl, None)

  /** The verb wrappers hand a body to intercept only for PATCH, POST and PUT. */
  predicate WellFormed(req: Req)
  {
    req.verb !in {PATCH, POST, PUT} ==> req.body.None?
  }

  /** The url argument intercept receives: `request()` passes `undefined`. */
  function InterceptUrl(req: Req): Option<string>
  {
    if req.verb == REQUEST then None else Some(req.url)
  }

  function NotFound(url: Option<string>): Response
  {
    Response(404, "Not Found", url, OtherBody)
  }

  /** `tokenMessage.token` of a parsed refresh response. */
  function TokenField(b: Body): Option<string>
  {
    match b
    case TokenMessage(t) => Some(t)
    case OtherBody => None
  }

  /** The `this[method](...)` dispatch of a retry: PATCH, POST and PUT resend
      url and body, REQUEST resends the original request, the rest the url. */
  function RetryRequest(req: Req): (r: Req)
    ensures r.verb == req.verb && r.url == req.url
    ensures WellFormed(r)
    ensures WellFormed(req) ==> r == req
  {
    match req.verb
    case PATCH | POST | PUT => req
    case REQUEST => Req(REQUEST, req.url, None)
    case _ => Req(req.verb, req.url, None)
  }

  /** The log of every transport call is only ever extended. */
  predicate Extends(w: World, w': World)
  {
    && |w.log| <= |w'.log| && w'.log[..|w.log|] == w.log
    && |w'.script| <= |w.script|
  }

  /** `a` is what is left of `b` after dropping elements from its front. */
  predicate Suffix(a: seq<Option<Outcome>>, b: seq<Option<Outcome>>)
    decreases |b|
  {
    a == b || (b != [] && Suffix(a, b[1..]))
  }

  lemma {:induction false} SuffixIsTail(a: seq<Option<Outcome>>, b: seq<Option<Outcome>>)
    requires Suffix(a, b)
    ensures |a| <= |b| && a == b[|b| - |a|..]
    decreases |b|
  {
    if a != b {
      SuffixIsTail(a, b[1..]);
    }
  }

  lemma {:induction false} SuffixTransitive(a: seq<Option<Outcome>>, b: seq<Option<Outcome>>, c: seq<Option<Outcome>>)
    requires Suffix(a, b) && Suffix(b, c)
    ensures Suffix(a, c)
    decreases |c|
  {
    if b != c {
      SuffixTransitive(a, b, c[1..]);
    }
  }

  /** The script is consumed from the front. */
  predicate Consumed(w: World, w': World)
  {
    Suffix(w'.script, w.script)
  }

  /** Every header set a transport call carried is one the builder makes. */
  predicate ProperHeaders(c: Call)
  {
    && Values(c.options.headers, "Content-Type") == [JsonMediaType]
    && |Values(c.options.headers, "Authorization")| <= 1
    && (forall h :: h in c.options.headers ==> h.name == "Content-Type" || h.name == "Authorization")
  }

  predicate ProperCallsFrom(w: World, w': World)
    requires |w.log| <= |w'.log|
  {
    forall i :: |w.log| <= i < |w'.log| ==> ProperHeaders(w'.log[i])
  }

  lemma ExtendsTransitive(w: World, w1: World, w2: World)
    requires Extends(w, w1) && Extends(w1, w2)
    requires ProperCallsFrom(w, w1) && ProperCallsFrom(w1, w2)
    ensures Extends(w, w2) && ProperCallsFrom(w, w2)
  {
    assert w2.log[..|w1.log|][..|w.log|] == w2.log[..|w.log|];
  }

  lemma ConsumedTransitive(w: World, w1: World, w2: World)
    requires Consumed(w, w1) && Consumed(w1, w2)
    ensures Consumed(w, w2)
  {
    SuffixTransitive(w2.script, w1.script, w.script);
  }

  /** The options a wrapper builds for the first call of a request. */
  function FirstOptions(w: World, req: Req, opts: Option<OptionArgs>): OptionArgs
  {
    BuildOptions(opts, req.verb == GET, Some(w.token))
  }

  /** The value intercept receives as `options`: the caller's object after
      the wrapper built the options in it. */
  function CallerOptions(w: World, req: Req, opts: Option<OptionArgs>): Option<OptionArgs>
  {
    if IsUndefinedOrEmpty(opts) then opts else Some(FirstOptions(w, req, opts))
  }

  /** The world once the first call of a request is made: its reply taken
      off the script and the call logged. */
  function AfterFirstCall(w: World, req: Req, opts: Option<OptionArgs>): World
  {
    w.(script := if w.script == [] then [] else w.script[1..],
       log := w.log + [Call(req, FirstOptions(w, req, opts))])
  }

  /** A verb wrapper: build the options (changing the caller's object when it
      is non-empty), call the transport, and intercept what comes back. */
  function Send(w: World, req: Req, opts: Option<OptionArgs>): (r: Sent)
    decreases |w.script|, 2
    ensures Extends(w, r.world) && |r.world.log| > |w.log|
    ensures Consumed(w, r.world)
    ensures ProperCallsFrom(w, r.world)
    ensures w.attempts <= MaxLoginAttempts ==> r.world.attempts <= MaxLoginAttempts
    ensures r.world.attempts < w.attempts ==>
              r.world.attempts == 0 && r.outcome.Failure? && r.outcome.error.status == Unauthorized
    ensures r.outcome.Failure? && r.outcome.error.status == Unauthorized ==> r.world.attempts == 0
  {
    var reply := if w.script == [] then None else w.script[0];
    var w1 := AfterFirstCall(w, req, opts);
    assert Extends(w, w1) && ProperHeaders(w1.log[|w.log|]);
    assert Consumed(w, w1);
    var r := Handle(w1, reply, req, CallerOptions(w, req, opts));
    ExtendsTransitive(w, w1, r.world);
    ConsumedTransitive(w, w1, r.world);
    r
  }

  /** intercept: a missing call becomes a 404; a 401 below the bound is
      recovered from; a 401 at the bound resets the counter and fails;
      anything else passes through unchanged. */
  function Handle(w: World, reply: Option<Outcome>, req: Req, opts: Option<OptionArgs>): (r: Sent)
    decreases |w.script| + (if reply.Some? then 1 else 0), 1
    ensures Extends(w, r.world)
    ensures Consumed(w, r.world)
    ensures ProperCallsFrom(w, r.world)
    ensures w.attempts <= MaxLoginAttempts ==> r.world.attempts <= MaxLoginAttempts
    ensures r.world.attempts < w.attempts ==>
              r.world.attempts == 0 && r.outcome.Failure? && r.outcome.error.status == Unauthorized
    ensures r.outcome.Failure? && r.outcome.error.status == Unauthorized ==> r.world.attempts == 0
  {
    match reply
    case None => Sent(Failure(NotFound(InterceptUrl(req))), w, opts)
    case Some(Success(_)) => Sent(reply.value, w, opts)
    case Some(Failure(err)) =>
      if err.status != Unauthorized then Sent(reply.value, w, opts)
      else if w.attempts < MaxLoginAttempts then Recover(w, req, opts)
      else Sent(reply.value, w.(attempts := 0), opts)
  }

  /** The recovery from a 401 below the bound: count an attempt, mark the
      token needed, fetch a new one through the interceptor itself, store it
      and re-dispatch the original request with freshly built options. */
  function Recover(w: World, req: Req, opts: Option<OptionArgs>): (r: Sent)
    requires w.attempts < MaxLoginAttempts
    decreases |w.script| + 1, 0
    ensures Extends(w, r.world) && |r.world.log| > |w.log|
    ensures Consumed(w, r.world)
    ensures ProperCallsFrom(w, r.world)
    ensures r.world.attempts <= MaxLoginAttempts
    ensures r.world.attempts <= w.attempts ==>
              r.world.attempts == 0 && r.outcome.Failure? && r.outcome.error.status == Unauthorized
    ensures r.outcome.Failure? && r.outcome.error.status == Unauthorized ==> r.world.attempts == 0
  {
    var w1 := w.(attempts := w.attempts + 1, token := Reduce(w.token, TokenNeeded));
    var refreshed := Send(w1, RefreshReq, None);
    match refreshed.outcome
    case Failure(_) => Sent(refreshed.outcome, refreshed.world, opts)
    case Success(resp) =>
      var w2 := refreshed.world.(token := Reduce(refreshed.world.token, TokenReceived(TokenField(resp.body))));
      var retried := Send(w2, RetryRequest(req), Some(BuildOptions(opts, false, Some(w2.token))));
      ExtendsTransitive(w, w2, retried.world);
      ConsumedTransitive(w, w2, retried.world);
      Sent(retried.outcome, retried.world, if IsUndefinedOrEmpty(opts) then opts else retried.callerOptions)
  }

  /** A request consumes its replies from the front of the script. */
  lemma SendConsumesFront(w: World, req: Req, opts: Option<OptionArgs>)
    ensures var left := Send(w, req, opts).world.script;
            |left| <= |w.script| && left == w.script[|w.script| - |left|..]
  {
    SuffixIsTail(Send(w, req, opts).world.script, w.script);
  }

  /** The next script entry is a 401 failure. */
  predicate IsUnauthorized(reply: Option<Outcome>)
  {
    reply.Some? && reply.value.Failure? && reply.value.error.status == Unauthorized
  }

  /** A verb call that yields no observable fails with a synthetic 404 that
      carries intercept's url; the counter and the token are untouched. */
  lemma MissingCallIsNotFound(w: World, req: Req, opts: Option<OptionArgs>)
    requires w.script == [] || w.script[0].None?
    ensures Send(w, req, opts).outcome == Failure(Response(404, "Not Found", InterceptUrl(req), OtherBody))
    ensures Send(w, req, opts).world.attempts == w.attempts
    ensures Send(w, req, opts).world.token == w.token
    ensures |Send(w, req, opts).world.log| == |w.log| + 1
  {
  }

  /** A success, or a failure other than 401, is the result as it came,
      after exactly one transport call; nothing is refreshed. */
  lemma OtherOutcomePassesThrough(w: World, req: Req, opts: Option<OptionArgs>)
    requires w.script != [] && w.script[0].Some? && !IsUnauthorized(w.script[0])
    ensures Send(w, req, opts).outcome == w.script[0].value
    ensures Send(w, req, opts).world.attempts == w.attempts
    ensures Send(w, req, opts).world.token == w.token
    ensures Send(w, req, opts).world.script == w.script[1..]
    ensures |Send(w, req, opts).world.log| == |w.log| + 1
  {
  }

  /** Once five attempts are spent, a 401 is given up on: the same 401
      surfaces after one call, the counter is reset to 0, nothing is refreshed. */
  lemma GiveUpAtBound(w: World, req: Req, opts: Option<OptionArgs>)
    requires w.attempts == MaxLoginAttempts && w.script != [] && IsUnauthorized(w.script[0])
    ensures Some(Send(w, req, opts).outcome) == w.script[0]
    ensures Send(w, req, opts).world.attempts == 0
    ensures Send(w, req, opts).world.token == w.token
    ensures Send(w, req, opts).world.script == w.script[1..]
    ensures |Send(w, req, opts).world.log| == |w.log| + 1
  {
    assert Send(w, req, opts) == Handle(AfterFirstCall(w, req, opts), w.script[0], req, CallerOptions(w, req, opts));
  }

  /** Every request first goes out with options built from the current
      token state. */
  lemma FirstCallUsesCurrentToken(w: World, req: Req, opts: Option<OptionArgs>)
    ensures Send(w, req, opts).world.log[|w.log|] == Call(req, BuildOptions(opts, req.verb == GET, Some(w.token)))
  {
  }

  /** The world in which the refresh GET starts after a 401 below the bound:
      the first call made, one more attempt spent, the token marked needed. */
  function Refreshing(w: World, req: Req, opts: Option<OptionArgs>): World
    requires w.script != []
  {
    var w1 := AfterFirstCall(w, req, opts);
    w1.(attempts := w1.attempts + 1, token := Reduce(w1.token, TokenNeeded))
  }

  /** The refresh starts one reply further into the script, one call further
      in the log, with one more attempt spent and the token marked needed. */
  lemma RefreshingShape(w: World, req: Req, opts: Option<OptionArgs>)
    requires w.script != []
    ensures Refreshing(w, req, opts).script == w.script[1..]
    ensures Refreshing(w, req, opts).log == w.log + [Call(req, FirstOptions(w, req, opts))]
    ensures Refreshing(w, req, opts).attempts == w.attempts + 1
    ensures Refreshing(w, req, opts).token == Reduce(w.token, TokenNeeded)
  {
  }

  /** The world in which the retry starts once the refresh GET succeeded. */
  function Retrying(w: World, req: Req, opts: Option<OptionArgs>): World
    requires w.script != []
  {
    var refreshed := Send(Refreshing(w, req, opts), RefreshReq, None);
    var t := if refreshed.outcome.Success? then TokenField(refreshed.outcome.response.body) else None;
    refreshed.world.(token := Reduce(refreshed.world.token, TokenReceived(t)))
  }

  /** A 401 below the bound is handled by the recovery. */
  lemma UnauthorizedRecovers(w: World, req: Req, opts: Option<OptionArgs>)
    requires w.script != [] && IsUnauthorized(w.script[0]) && w.attempts < MaxLoginAttempts
    ensures Send(w, req, opts) ==
              Recover(AfterFirstCall(w, req, opts), req, CallerOptions(w, req, opts))
  {
    assert Send(w, req, opts) == Handle(AfterFirstCall(w, req, opts), w.script[0], req, CallerOptions(w, req, opts));
  }

  /** A 401 below the bound whose refresh GET fails ends as that refresh. */
  lemma FailedRefreshEndsRequest(w: World, req: Req, opts: Option<OptionArgs>)
    requires w.script != [] && IsUnauthorized(w.script[0]) && w.attempts < MaxLoginAttempts
    requires Send(Refreshing(w, req, opts), RefreshReq, None).outcome.Failure?
    ensures Send(w, req, opts).outcome == Send(Refreshing(w, req, opts), RefreshReq, None).outcome
    ensures Send(w, req, opts).world == Send(Refreshing(w, req, opts), RefreshReq, None).world
  {
    UnauthorizedRecovers(w, req, opts);
  }

  /** A 401 below the bound whose refresh GET succeeds ends as the retry,
      sent with options rebuilt under the received token. */
  lemma SucceededRefreshRetries(w: World, req: Req, opts: Option<OptionArgs>)
    requires w.script != [] && IsUnauthorized(w.script[0]) && w.attempts < MaxLoginAttempts
    requires Send(Refreshing(w, req, opts), RefreshReq, None).outcome.Success?
    ensures var w3 := Retrying(w, req, opts);
            var retried := Send(w3, RetryRequest(req), Some(BuildOptions(CallerOptions(w, req, opts), false, Some(w3.token))));
            Send(w, req, opts).outcome == retried.outcome && Send(w, req, opts).world == retried.world
  {
    UnauthorizedRecovers(w, req, opts);
  }

  /** On a 401 below the bound the very next transport call is the refresh
      GET of /assets/token.json, and it carries no bearer credential since
      the token was just marked as needed. */
  lemma RefreshFollowsUnauthorized(w: World, req: Req, opts: Option<OptionArgs>)
    requires w.script != [] && IsUnauthorized(w.script[0]) && w.attempts < MaxLoginAttempts
    ensures |Send(w, req, opts).world.log| >= |w.log| + 2
    ensures Send(w, req, opts).world.log[|w.log| + 1].req == RefreshReq
    ensures Values(Send(w, req, opts).world.log[|w.log| + 1].options.headers, "Authorization") == []
  {
    var w2 := Refreshing(w, req, opts);
    var refreshed := Send(w2, RefreshReq, None);
    FirstCallUsesCurrentToken(w2, RefreshReq, None);
    NoBearerAfterNeededOrCleared(w.token, None, true);
    var r := Send(w, req, opts);
    if refreshed.outcome.Failure? {
      FailedRefreshEndsRequest(w, req, opts);
    } else {
      SucceededRefreshRetries(w, req, opts);
      var w3 := Retrying(w, req, opts);
      assert Extends(w3, r.world);
      assert r.world.log[..|refreshed.world.log|] == refreshed.world.log;
      assert r.world.log[|w2.log|] == r.world.log[..|refreshed.world.log|][|w2.log|];
    }
  }

  /** When the refresh GET itself fails with anything but a 401 (or yields
      no call), that failure surfaces: the attempt stays spent and the token
      stays marked as needed; the original request is not retried. */
  lemma RefreshFailureSurfaces(w: World, req: Req, opts: Option<OptionArgs>)
    requires w.attempts < MaxLoginAttempts
    requires |w.script| >= 2 && IsUnauthorized(w.script[0])
    requires !IsUnauthorized(w.script[1]) && !(w.script[1].Some? && w.script[1].value.Success?)
    ensures Send(w, req, opts).outcome ==
              if w.script[1].None? then Failure(NotFound(Some(TokenUrl))) else w.script[1].value
    ensures Send(w, req, opts).world.attempts == w.attempts + 1
    ensures Send(w, req, opts).world.token == Reduce(w.token, TokenNeeded)
    ensures Send(w, req, opts).world.script == w.script[2..]
    ensures |Send(w, req, opts).world.log| == |w.log| + 2
  {
    var w2 := Refreshing(w, req, opts);
    if w.script[1].None? {
      MissingCallIsNotFound(w2, RefreshReq, None);
    } else {
      OtherOutcomePassesThrough(w2, RefreshReq, None);
    }
    FailedRefreshEndsRequest(w, req, opts);
  }

  /** Once the refresh GET succeeds, the third transport call re-issues the
      original verb, url and body, whatever the transport answers to it,
      carrying the received token as bearer credential when it is non-empty. */
  lemma RetryResendsRequest(w: World, req: Req, opts: Option<OptionArgs>)
    requires WellFormed(req) && w.attempts < MaxLoginAttempts
    requires |w.script| >= 2 && IsUnauthorized(w.script[0])
    requires w.script[1].Some? && w.script[1].value.Success?
    ensures |Send(w, req, opts).world.log| >= |w.log| + 3
    ensures Send(w, req, opts).world.log[|w.log| + 2].req == req
    ensures var t := TokenField(w.script[1].value.response.body);
            t.Some? && t.value != "" ==>
              Values(Send(w, req, opts).world.log[|w.log| + 2].options.headers, "Authorization") == [Bearer(t.value)]
  {
    var w2 := Refreshing(w, req, opts);
    OtherOutcomePassesThrough(w2, RefreshReq, None);
    var refreshed := Send(w2, RefreshReq, None);
    var t := TokenField(w.script[1].value.response.body);
    var w3 := Retrying(w, req, opts);
    assert w3 == refreshed.world.(token := Reduce(refreshed.world.token, TokenReceived(t)));
    assert |w3.log| == |w.log| + 2;
    var retryOpts := Some(BuildOptions(CallerOptions(w, req, opts), false, Some(w3.token)));
    FirstCallUsesCurrentToken(w3, req, retryOpts);
    SucceededRefreshRetries(w, req, opts);
    var retried := Send(w3, req, retryOpts);
    if t.Some? && t.value != "" {
      BearerAfterReceived(refreshed.world.token, t.value, retryOpts, req.verb == GET);
    }
  }

  /** A transport that answers 401 once, then the token, then the real
      response: the request succeeds, exactly one token is stored, one
      attempt is consumed, and three calls are made (the retry re-issues the
      request as `RetryResendsRequest` states). */
  lemma RecoverOnceThenSucceed(w: World, req: Req, opts: Option<OptionArgs>, t: string)
    requires WellFormed(req) && w.attempts < MaxLoginAttempts
    requires |w.script| >= 3 && IsUnauthorized(w.script[0])
    requires w.script[1].Some? && w.script[1].value.Success? && w.script[1].value.response.body == TokenMessage(t)
    requires w.script[2].Some? && w.script[2].value.Success?
    ensures Send(w, req, opts).outcome == w.script[2].value
    ensures Send(w, req, opts).world.attempts == w.attempts + 1
    ensures Send(w, req, opts).world.token == TokenState(Some(false), Some(t))
    ensures Send(w, req, opts).world.script == w.script[3..]
    ensures |Send(w, req, opts).world.log| == |w.log| + 3
    ensures Send(w, req, opts).world.log[|w.log| + 2].req == req
    ensures t != "" ==> Values(Send(w, req, opts).world.log[|w.log| + 2].options.headers, "Authorization") == [Bearer(t)]
  {
    var w2 := Refreshing(w, req, opts);
    OtherOutcomePassesThrough(w2, RefreshReq, None);
    var w3 := Retrying(w, req, opts);
    assert w3.script == w.script[2..];
    var retryOpts := Some(BuildOptions(CallerOptions(w, req, opts), false, Some(w3.token)));
    OtherOutcomePassesThrough(w3, req, retryOpts);
    SucceededRefreshRetries(w, req, opts);
    RetryResendsRequest(w, req, opts);
  }

  /** A transport that answers 401 to everything: from `k` spent attempts,
      6 - k transport calls are made (the refresh requests fail with 401 too
      and spend the same attempts), the last 401 surfaces and the counter is
      back to 0. From a fresh interceptor that is exactly six calls. */
  lemma {:induction false} AlwaysUnauthorized(w: World, req: Req, opts: Option<OptionArgs>)
    requires w.attempts <= MaxLoginAttempts
    requires |w.script| >= 6 - w.attempts
    requires forall i :: 0 <= i < 6 - w.attempts ==> IsUnauthorized(w.script[i])
    ensures Some(Send(w, req, opts).outcome) == w.script[5 - w.attempts]
    ensures Send(w, req, opts).world.attempts == 0
    ensures Send(w, req, opts).world.script == w.script[6 - w.attempts..]
    ensures |Send(w, req, opts).world.log| == |w.log| + 6 - w.attempts
    decreases MaxLoginAttempts - w.attempts
  {
    assert IsUnauthorized(w.script[0]);
    if w.attempts < MaxLoginAttempts {
      var w2 := Refreshing(w, req, opts);
      RefreshingShape(w, req, opts);
      forall i | 0 <= i < 6 - w2.attempts
        ensures IsUnauthorized(w2.script[i])
      {
        assert w2.script[i] == w.script[i + 1];
      }
      AlwaysUnauthorized(w2, RefreshReq, None);
      FailedRefreshEndsRequest(w, req, opts);
      assert w2.script[5 - w2.attempts] == w.script[5 - w.attempts];
      assert w2.script[6 - w2.attempts..] == w.script[6 - w.attempts..];
    } else {
      assert Send(w, req, opts) == Handle(AfterFirstCall(w, req, opts), w.script[0], req, CallerOptions(w, req, opts));
    }
  }

  /** A fresh interceptor facing a transport that always answers 401. */
  lemma SixCallsFromFresh(w: World, req: Req, opts: Option<OptionArgs>)
    requires w.attempts == 0 && |w.script| >= 6
    requires forall i :: 0 <= i < 6 ==> IsUnauthorized(w.script[i])
    ensures Some(Send(w, req, opts).outcome) == w.script[5]
    ensures Send(w, req, opts).world.attempts == 0
    ensures |Send(w, req, opts).world.log| == |w.log| + 6
  {
    AlwaysUnauthorized(w, req, opts);
  }
}
