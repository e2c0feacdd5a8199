/**
 * HttpInterceptorService (src/client/app/core/services/http-interceptor.service.ts)
 * as a class over its collaborators: the token store (TokenService) and a
 * scripted stand-in for Angular's Http service. Every method is proved to
 * behave as the functions of module InterceptProtocol say.
 */
module HttpInterceptor {
  import opened Wrappers
  import opened TokenReducer
  import opened HttpOptions
  import opened InterceptProtocol

  /** The token store. Its code is not part of this model: refreshToken and
      setToken are taken to dispatch TOKEN_NEEDED and TOKEN_RECEIVED. */
  class TokenService {
    var state: TokenState

    constructor()
      ensures state == InitialState
    {
      state := InitialState;
    }

    method RefreshToken()
      modifies this
      ensures state == Reduce(old(state), TokenNeeded)
    {
      state := Reduce(state, TokenNeeded);
    }

    method SetToken(token: Option<string>)
      modifies this
      ensures state == Reduce(old(state), TokenReceived(token))
    {
      state := Reduce(state, TokenReceived(token));
    }
  }

  /** The underlying Http service: each call consumes the next scripted
      reply and is recorded with the options it was given. */
  class Http {
    var script: seq<Option<Outcome>>
    var log: seq<Call>

    constructor(script: seq<Option<Outcome>>)
      ensures this.script == script && log == []
    {
      this.script := script;
      log := [];
    }

    method Issue(req: Req, options: OptionArgs) returns (reply: Option<Outcome>)
      modifies this
      ensures reply == if old(script) == [] then None else old(script)[0]
      ensures script == if old(script) == [] then [] else old(script)[1..]
      ensures log == old(log) + [Call(req, options)]
    {
      reply := if script == [] then None else script[0];
      script := if script == [] then [] else script[1..];
      log := log + [Call(req, options)];
    }
  }

  /** Angular's RequestOptions: a mutable object the builder changes in place. */
  class RequestOptions {
    var headers: seq<Header>
    var body: Option<string>
    var other: map<string, string>

    constructor()
      ensures Value() == NoOptions
    {
      headers := [];
      body := None;
      other := map[];
    }

    function Value(): OptionArgs
      reads this
    {
      OptionArgs(headers, body, other)
    }
  }

  /** The value of a possibly undefined options object. */
  function ValueOf(o: RequestOptions?): Option<OptionArgs>
    reads o
  {
    if o == null then None else Some(o.Value())
  }

  class HttpInterceptorService {
    /** The number of login attempts, shared by every request. */
    var loginAttempts: nat
    const http: Http
    const tokens: TokenService

    constructor(http: Http, tokens: TokenService)
      ensures this.http == http && this.tokens == tokens
      ensures loginAttempts == 0
    {
      this.http := http;
      this.tokens := tokens;
      loginAttempts := 0;
    }

    /** The state the protocol functions work on. */
    function State(): World
      reads this, http, tokens
    {
      World(loginAttempts, tokens.state, http.script, http.log)
    }

    /** getRequestOptionArgs: reuses the caller's object unless it is
        undefined or empty, replaces its headers, blanks the body for a GET. */
    method GetRequestOptionArgs(options: RequestOptions?, isGet: bool) returns (r: RequestOptions)
      modifies options
      ensures r.Value() == BuildOptions(old(ValueOf(options)), isGet, Some(tokens.state))
      ensures if IsUndefinedOrEmpty(old(ValueOf(options))) then fresh(r) && (options != null ==> unchanged(options))
              else r == options
    {
      if IsUndefinedOrEmpty(ValueOf(options)) {
        r := new RequestOptions();
      } else {
        r := options;
      }
      r.headers := [];
      r.headers := r.headers + [Header("Content-Type", JsonMediaType)];
      var token := tokens.state;
      if BearerAllowed(Some(token)) {
        r.headers := r.headers + [Header("Authorization", Bearer(token.value.value))];
      }
      if isGet {
        r.body := Some("");
      }
    }

    /** The shared shape of every verb wrapper:
        `intercept(http.verb(url, [body,] getRequestOptionArgs(options)), ...)`. */
    method Dispatch(req: Req, options: RequestOptions?) returns (o: Outcome)
      modifies this, http, tokens, options
      decreases |http.script|, 2
      ensures Sent(o, State(), ValueOf(options)) == Send(old(State()), req, old(ValueOf(options)))
      ensures old(loginAttempts) <= MaxLoginAttempts ==> loginAttempts <= MaxLoginAttempts
    {
      ghost var w := State();
      ghost var opts := ValueOf(options);
      var built := GetRequestOptionArgs(options, req.verb == GET);
      assert State() == w;
      assert ValueOf(options) == CallerOptions(w, req, opts);
      var reply := http.Issue(req, built.Value());
      assert ValueOf(options) == CallerOptions(w, req, opts);
      assert State() == AfterFirstCall(w, req, opts);
      o := Intercept(reply, req, options);
    }

    method Intercept(reply: Option<Outcome>, req: Req, options: RequestOptions?) returns (o: Outcome)
      modifies this, http, tokens, options
      decreases |http.script| + (if reply.Some? then 1 else 0), 1
      ensures Sent(o, State(), ValueOf(options)) == Handle(old(State()), reply, req, old(ValueOf(options)))
      ensures old(loginAttempts) <= MaxLoginAttempts ==> loginAttempts <= MaxLoginAttempts
    {
      match reply
      case None =>
        o := Failure(NotFound(InterceptUrl(req)));
      case Some(outcome) =>
        if outcome.Failure? && outcome.error.status == Unauthorized {
          if loginAttempts < MaxLoginAttempts {
            o := Recover(req, options);
          } else {
            loginAttempts := 0;
            o := outcome;
          }
        } else {
          o := outcome;
        }
    }

    /** The recovery branch of intercept. */
    method Recover(req: Req, options: RequestOptions?) returns (o: Outcome)
      requires loginAttempts < MaxLoginAttempts
      modifies this, http, tokens, options
      decreases |http.script| + 1, 0
      ensures Sent(o, State(), ValueOf(options)) == InterceptProtocol.Recover(old(State()), req, old(ValueOf(options)))
      ensures loginAttempts <= MaxLoginAttempts
    {
      ghost var w := State();
      ghost var opts := ValueOf(options);
      loginAttempts := loginAttempts + 1;
      tokens.RefreshToken();
      ghost var w1 := State();
      assert w1 == w.(attempts := w.attempts + 1, token := Reduce(w.token, TokenNeeded));
      var refreshed := Get(TokenUrl, null);
      ghost var sent := Send(w1, RefreshReq, None);
      assert refreshed == sent.outcome && State() == sent.world;
      assert ValueOf(options) == opts;
      if refreshed.Failure? {
        return refreshed;
      }
      tokens.SetToken(TokenField(refreshed.response.body));
      ghost var w2 := State();
      assert w2 == sent.world.(token := Reduce(sent.world.token, TokenReceived(TokenField(refreshed.response.body))));
      var retryOptions := GetRequestOptionArgs(options, false);
      assert State() == w2;
      assert retryOptions.Value() == BuildOptions(opts, false, Some(w2.token));
      o := Redispatch(req, retryOptions);
      assert IsUndefinedOrEmpty(opts) ==> ValueOf(options) == opts;
    }

    /** `this[method](...)`: the wrapper named by the verb. */
    method Redispatch(req: Req, options: RequestOptions) returns (o: Outcome)
      modifies this, http, tokens, options
      decreases |http.script|, 4
      ensures Sent(o, State(), ValueOf(options)) == Send(old(State()), RetryRequest(req), old(ValueOf(options)))
      ensures old(loginAttempts) <= MaxLoginAttempts ==> loginAttempts <= MaxLoginAttempts
    {
      match req.verb
      case PATCH => o := Patch(req.url, req.body, options);
      case POST => o := Post(req.url, req.body, options);
      case PUT => o := Put(req.url, req.body, options);
      case REQUEST => o := Request(req.url, options);
      case GET => o := Get(req.url, options);
      case DELETE => o := Delete(req.url, options);
      case HEAD => o := Head(req.url, options);
      case OPTIONS => o := Options(req.url, options);
    }

    method Delete(url: string, options: RequestOptions?) returns (o: Outcome)
      modifies this, http, tokens, options
      decreases |http.script|, 3
      ensures Sent(o, State(), ValueOf(options)) == Send(old(State()), Req(DELETE, url, None), old(ValueOf(options)))
      ensures old(loginAttempts) <= MaxLoginAttempts ==> loginAttempts <= MaxLoginAttempts
    {
      o := Dispatch(Req(DELETE, url, None), options);
    }

    method Get(url: string, options: RequestOptions?) returns (o: Outcome)
      modifies this, http, tokens, options
      decreases |http.script|, 3
      ensures Sent(o, State(), ValueOf(options)) == Send(old(State()), Req(GET, url, None), old(ValueOf(options)))
      ensures old(loginAttempts) <= MaxLoginAttempts ==> loginAttempts <= MaxLoginAttempts
    {
      o := Dispatch(Req(GET, url, None), options);
    }

    method Head(url: string, options: RequestOptions?) returns (o: Outcome)
      modifies this, http, tokens, options
      decreases |http.script|, 3
      ensures Sent(o, State(), ValueOf(options)) == Send(old(State()), Req(HEAD, url, None), old(ValueOf(options)))
      ensures old(loginAttempts) <= MaxLoginAttempts ==> loginAttempts <= MaxLoginAttempts
    {
      o := Dispatch(Req(HEAD, url, None), options);
    }

    method Options(url: string, options: RequestOptions?) returns (o: Outcome)
      modifies this, http, tokens, options
      decreases |http.script|, 3
      ensures Sent(o, State(), ValueOf(options)) == Send(old(State()), Req(OPTIONS, url, None), old(ValueOf(options)))
      ensures old(loginAttempts) <= MaxLoginAttempts ==> loginAttempts <= MaxLoginAttempts
    {
      o := Dispatch(Req(OPTIONS, url, None), options);
    }

    method Patch(url: string, body: Option<string>, options: RequestOptions?) returns (o: Outcome)
      modifies this, http, tokens, options
      decreases |http.script|, 3
      ensures Sent(o, State(), ValueOf(options)) == Send(old(State()), Req(PATCH, url, body), old(ValueOf(options)))
      ensures old(loginAttempts) <= MaxLoginAttempts ==> loginAttempts <= MaxLoginAttempts
    {
      o := Dispatch(Req(PATCH, url, body), options);
    }

    method Post(url: string, body: Option<string>, options: RequestOptions?) returns (o: Outcome)
      modifies this, http, tokens, options
      decreases |http.script|, 3
      ensures Sent(o, State(), ValueOf(options)) == Send(old(State()), Req(POST, url, body), old(ValueOf(options)))
      ensures old(loginAttempts) <= MaxLoginAttempts ==> loginAttempts <= MaxLoginAttempts
    {
      o := Dispatch(Req(POST, url, body), options);
    }

    method Put(url: string, body: Option<string>, options: RequestOptions?) returns (o: Outcome)
      modifies this, http, tokens, options
      decreases |http.script|, 3
      ensures Sent(o, State(), ValueOf(options)) == Send(old(State()), Req(PUT, url, body), old(ValueOf(options)))
      ensures old(loginAttempts) <= MaxLoginAttempts ==> loginAttempts <= MaxLoginAttempts
    {
      o := Dispatch(Req(PUT, url, body), options);
    }

    /** request(url | Request): intercept receives no url, only the request. */
    method Request(request: string, options: RequestOptions?) returns (o: Outcome)
      modifies this, http, tokens, options
      decreases |http.script|, 3
      ensures Sent(o, State(), ValueOf(options)) == Send(old(State()), Req(REQUEST, request, None), old(ValueOf(options)))
      ensures old(loginAttempts) <= MaxLoginAttempts ==> loginAttempts <= MaxLoginAttempts
    {
      o := Dispatch(Req(REQUEST, request, None), options);
    }
  }
}
