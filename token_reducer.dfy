/**
 * The token store's reducer (src/client/app/core/reducers/token.reducer.ts).
 * A pure transition function over the two-field state {needed, value}.
 */
module TokenReducer {
  import opened Wrappers

  /** ITokenState. Either field may be absent: TOKEN_CLEARED yields `{}` and
      the initial value is `undefined`. */
  datatype TokenState = TokenState(needed: Option<bool>, value: Option<string>)

  /** The actions the reducer reacts to; `Unrelated` stands for every action
      type other than the three token actions (the default branch). */
  datatype Action =
    | TokenReceived(payload: Option<string>)
    | TokenNeeded
    | TokenCleared
    | Unrelated(kind: string)

  /** initialState: a token is not needed and there is no value yet. */
  const InitialState: TokenState := TokenState(Some(false), None)

  /** The empty object `{}`. */
  const EmptyState: TokenState := TokenState(None, None)

  /** tokenReducerFunction: a fresh state for each token action, the same
      state for any other action. */
  function Reduce(state: TokenState, action: Action): TokenState
  {
    match action
    case TokenReceived(p) => state.(needed := Some(false), value := p)
    case TokenNeeded => state.(needed := Some(true))
    case TokenCleared => EmptyState
    case Unrelated(_) => state
  }

  lemma InitialStateHasNoToken()
    ensures InitialState.needed == Some(false) && InitialState.value == None
  {
  }

  /** TOKEN_RECEIVED(p) forgets the prior state entirely. */
  lemma ReceivedOverwrites(s1: TokenState, s2: TokenState, p: Option<string>)
    ensures Reduce(s1, TokenReceived(p)) == Reduce(s2, TokenReceived(p))
    ensures Reduce(s1, TokenReceived(p)).needed == Some(false)
    ensures Reduce(s1, TokenReceived(p)).value == p
  {
  }

  /** TOKEN_NEEDED raises the flag and keeps a (possibly stale) value. */
  lemma NeededKeepsValue(s: TokenState)
    ensures Reduce(s, TokenNeeded).needed == Some(true)
    ensures Reduce(s, TokenNeeded).value == s.value
  {
  }

  /** TOKEN_CLEARED yields the empty state whatever the input. */
  lemma ClearedEmpties(s: TokenState)
    ensures Reduce(s, TokenCleared).needed.None?
    ensures Reduce(s, TokenCleared).value.None?
  {
  }

  /** Any other action is the identity. */
  lemma UnrelatedIsIdentity(s: TokenState, kind: string)
    ensures Reduce(s, Unrelated(kind)) == s
  {
  }

  /** Every action is idempotent: applying it twice equals applying it once. */
  lemma ReduceIdempotent(s: TokenState, a: Action)
    ensures Reduce(Reduce(s, a), a) == Reduce(s, a)
  {
  }
}
