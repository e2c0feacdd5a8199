/**
 * The request-option builder of the HTTP interceptor
 * (getRequestOptionArgs in src/client/app/core/services/http-interceptor.service.ts),
 * on values. The class-based, in-place version lives in module HttpInterceptor.
 */
module HttpOptions {
  import opened Wrappers
  import opened TokenReducer

  datatype Header = Header(name: string, value: string)

  /** The fields of a RequestOptions object that matter here: its headers,
      its body, and every other option field, kept as opaque name/value pairs. */
  datatype OptionArgs = OptionArgs(headers: seq<Header>, body: Option<string>, other: map<string, string>)

  const JsonMediaType := "application/json"

  /** `new RequestOptions()`: no field set. */
  const NoOptions := OptionArgs([], None, map[])

  /** UtilsService.isUndefinedOrEmpty on an options object (an assumption:
      that helper is not part of this model): undefined, or no field set. */
  predicate IsUndefinedOrEmpty(o: Option<OptionArgs>)
  {
    o.None? || o.value == NoOptions
  }

  /** The header condition: the state is defined, its value is a non-empty
      string, and `needed` is defined and false. */
  predicate BearerAllowed(token: Option<TokenState>)
  {
    && token.Some?
    && token.value.value.Some? && token.value.value.value != ""
    && token.value.needed == Some(false)
  }

  function Bearer(token: string): string
  {
    "Bearer " + token
  }

  /** The values of every header called `name`, in order. */
  function Values(hs: seq<Header>, name: string): (vs: seq<string>)
    ensures |vs| <= |hs|
    ensures vs != [] <==> exists i :: 0 <= i < |hs| && hs[i].name == name
  {
    if hs == [] then []
    else (if hs[0].name == name then [hs[0].value] else []) + Values(hs[1..], name)
  }

  /** getRequestOptionArgs(options, isGet) with the token state `token`:
      the caller's options (or fresh ones), with the headers rebuilt from
      scratch and, for a GET, an empty body. */
  function BuildOptions(o: Option<OptionArgs>, isGet: bool, token: Option<TokenState>): (r: OptionArgs)
    ensures Values(r.headers, "Content-Type") == [JsonMediaType]
    ensures Values(r.headers, "Authorization") != [] <==> BearerAllowed(token)
    ensures BearerAllowed(token) ==> Values(r.headers, "Authorization") == [Bearer(token.value.value.value)]
    ensures forall h :: h in r.headers ==> h.name == "Content-Type" || h.name == "Authorization"
  {
    var base := if IsUndefinedOrEmpty(o) then NoOptions else o.value;
    var auth := if BearerAllowed(token) then [Header("Authorization", Bearer(token.value.value.value))] else [];
    base.(headers := [Header("Content-Type", JsonMediaType)] + auth,
          body := if isGet then Some("") else base.body)
  }

  /** Only a GET blanks the body; every other option field is the caller's. */
  lemma BodyAndOtherFields(o: Option<OptionArgs>, isGet: bool, token: Option<TokenState>)
    ensures isGet ==> BuildOptions(o, isGet, token).body == Some("")
    ensures !isGet ==> BuildOptions(o, isGet, token).body == (if o.Some? then o.value.body else None)
    ensures BuildOptions(o, isGet, token).other == (if o.Some? then o.value.other else map[])
  {
  }

  /** The headers the caller supplied are discarded: the built headers depend
      on the token state alone. */
  lemma CallerHeadersDiscarded(o1: Option<OptionArgs>, o2: Option<OptionArgs>, g1: bool, g2: bool,
                               token: Option<TokenState>)
    ensures BuildOptions(o1, g1, token).headers == BuildOptions(o2, g2, token).headers
  {
  }

  /** Re-applying the builder under the same token state, as every retry
      does, duplicates nothing; a GET at either step leaves the body blank. */
  lemma BuildAbsorbs(o: Option<OptionArgs>, g1: bool, g2: bool, token: Option<TokenState>)
    ensures BuildOptions(Some(BuildOptions(o, g1, token)), g2, token) == BuildOptions(o, g1 || g2, token)
  {
  }

  lemma BuildIdempotent(o: Option<OptionArgs>, isGet: bool, token: Option<TokenState>)
    ensures BuildOptions(Some(BuildOptions(o, isGet, token)), isGet, token) == BuildOptions(o, isGet, token)
  {
    BuildAbsorbs(o, isGet, isGet, token);
  }

  /** Right after TOKEN_NEEDED or TOKEN_CLEARED no Authorization header is
      sent, whatever value was stored before. */
  lemma NoBearerAfterNeededOrCleared(s: TokenState, o: Option<OptionArgs>, isGet: bool)
    ensures Values(BuildOptions(o, isGet, Some(Reduce(s, TokenNeeded))).headers, "Authorization") == []
    ensures Values(BuildOptions(o, isGet, Some(Reduce(s, TokenCleared))).headers, "Authorization") == []
  {
  }

  /** A received non-empty token is attached as the only bearer credential. */
  lemma BearerAfterReceived(s: TokenState, t: string, o: Option<OptionArgs>, isGet: bool)
    requires t != ""
    ensures Values(BuildOptions(o, isGet, Some(Reduce(s, TokenReceived(Some(t))))).headers, "Authorization")
            == [Bearer(t)]
  {
  }

  /** The initial state sends no credential. */
  lemma NoBearerInitially(o: Option<OptionArgs>, isGet: bool)
    ensures Values(BuildOptions(o, isGet, Some(InitialState)).headers, "Authorization") == []
  {
  }
}
