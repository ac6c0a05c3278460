/**
 * The Reddit access-token cache. A token is used while more than five minutes
 * of its lifetime remain. A request for a token looks in memory first, then in
 * the token file, and only then fetches a new token, which is saved to the file.
 * One manager serves the whole process.
 */
module RedditToken {
  import opened Common

  /** `{accessToken, expiresAt}`, with `expiresAt` in milliseconds since the epoch. */
  datatype TokenData = TokenData(accessToken: string, expiresAt: int)

  /** Five minutes, in milliseconds. */
  const Margin := 60000 * 5

  /** `Date.now() < token.expiresAt - 60000 * 5`. */
  predicate IsTokenValid(token: TokenData, now: int) {
    now < token.expiresAt - Margin
  }

  /**
   * A token is usable exactly while more than 300000 ms of it remain: at the
   * margin itself it is not, one millisecond before it is, and once invalid it
   * stays invalid as time goes on.
   */
  lemma ValidityMargin(token: TokenData, now: int, later: int)
    requires now <= later
    ensures IsTokenValid(token, now) <==> token.expiresAt - now > 300000
    ensures !IsTokenValid(token, token.expiresAt - 300000)
    ensures IsTokenValid(token, token.expiresAt - 300001)
    ensures IsTokenValid(token, later) ==> IsTokenValid(token, now)
  {
  }

  /** The token built from a token response: `expiresAt = now + expires_in * 1000`. */
  function Fetched(now: int, accessToken: string, expiresIn: int): (t: TokenData)
    ensures t.accessToken == accessToken
    ensures expiresIn * 1000 > Margin ==> IsTokenValid(t, now)
    ensures expiresIn * 1000 <= Margin ==> !IsTokenValid(t, now)
  {
    TokenData(accessToken, now + expiresIn * 1000)
  }

  /** The manager's memory and the token file after one request, and what the request gave back. */
  datatype Lookup = Lookup(result: Result<string, string>, current: Option<TokenData>, file: Option<TokenData>)

  /**
   * `getRedditToken()` at time `now`. `file` is what reading the token file
   * yields (`None` when it is missing or unreadable); `response` is the token
   * endpoint's answer, `Ok((access_token, expires_in))` or the request's error.
   */
  function TokenLookup(current: Option<TokenData>, file: Option<TokenData>, now: int,
                       response: Result<(string, int), string>): Lookup
  {
    if current.Some? && IsTokenValid(current.value, now) then Lookup(Ok(current.value.accessToken), current, file)
    else if file.Some? && IsTokenValid(file.value, now) then Lookup(Ok(file.value.accessToken), file, file)
    else if response.Err? then Lookup(Err(response.error), current, file)
    else
      var t := Fetched(now, response.value.0, response.value.1);
      Lookup(Ok(t.accessToken), Some(t), Some(t))
  }

  /**
   * A valid token in memory wins: neither the file nor the endpoint is
   * consulted, so any other file content or answer gives the same result, and
   * neither memory nor the file changes.
   */
  lemma MemoryTokenFirst(current: Option<TokenData>, file: Option<TokenData>, file': Option<TokenData>, now: int,
                         response: Result<(string, int), string>, response': Result<(string, int), string>)
    requires current.Some? && IsTokenValid(current.value, now)
    ensures var l := TokenLookup(current, file, now, response);
      && l.result == TokenLookup(current, file', now, response').result == Ok(current.value.accessToken)
      && l.current == current && l.file == file
  {
  }

  /**
   * Otherwise a valid token in the file wins: the endpoint is not consulted,
   * the file token is returned and memory now holds it.
   */
  lemma FileTokenSecond(current: Option<TokenData>, file: Option<TokenData>, now: int,
                        response: Result<(string, int), string>, response': Result<(string, int), string>)
    requires !(current.Some? && IsTokenValid(current.value, now))
    requires file.Some? && IsTokenValid(file.value, now)
    ensures var l := TokenLookup(current, file, now, response);
      && l == TokenLookup(current, file, now, response')
      && l.result == Ok(file.value.accessToken)
      && l.current == l.file == file
  {
  }

  /**
   * Only when neither is valid is the endpoint asked: a successful answer puts
   * the same token, expiring `expires_in` seconds from now, in memory and in
   * the file; a failed one is passed on and changes nothing.
   */
  lemma FetchLast(current: Option<TokenData>, file: Option<TokenData>, now: int, response: Result<(string, int), string>)
    requires !(current.Some? && IsTokenValid(current.value, now))
    requires !(file.Some? && IsTokenValid(file.value, now))
    ensures var l := TokenLookup(current, file, now, response);
      && (response.Ok? ==>
            && l.result == Ok(response.value.0)
            && l.current == l.file == Some(TokenData(response.value.0, now + response.value.1 * 1000)))
      && (response.Err? ==> l.result == Err(response.error) && l.current == current && l.file == file)
  {
  }

  /**
   * Whatever a request returns is the token the manager then holds, and that
   * token is valid at that time unless it is the one just fetched.
   */
  lemma LookupHolds(current: Option<TokenData>, file: Option<TokenData>, now: int, response: Result<(string, int), string>)
    ensures var l := TokenLookup(current, file, now, response);
      l.result.Ok? ==> l.current.Some? && l.current.value.accessToken == l.result.value
    ensures var l := TokenLookup(current, file, now, response);
      l.result.Ok? ==> (IsTokenValid(l.current.value, now)
        || (response.Ok? && l.current == Some(Fetched(now, response.value.0, response.value.1))))
  {
  }

  /**
   * A fetched token that lasts longer than the margin is reused: a second
   * request at the same time returns it from memory whatever the endpoint
   * would answer.
   */
  lemma FetchedTokenReused(current: Option<TokenData>, file: Option<TokenData>, now: int,
                           response: Result<(string, int), string>, again: Result<(string, int), string>)
    requires response.Ok? && response.value.1 * 1000 > Margin
    ensures var l := TokenLookup(current, file, now, response);
      var l' := TokenLookup(l.current, l.file, now, again);
      l'.result == l.result && l'.current == l.current && l'.file == l.file
  {
  }

  /** The manager: its in-memory token and, beside it, the token file's content. */
  class RedditTokenManager {
    var currentToken: Option<TokenData>
    var file: Option<TokenData>

    constructor (file: Option<TokenData>)
      ensures currentToken.None? && this.file == file
    {
      currentToken := None;
      this.file := file;
    }

    method GetRedditToken(now: int, response: Result<(string, int), string>) returns (r: Result<string, string>)
      modifies this
      ensures Lookup(r, currentToken, file) == TokenLookup(old(currentToken), old(file), now, response)
    {
      if currentToken.Some? && IsTokenValid(currentToken.value, now) {
        return Ok(currentToken.value.accessToken);
      }
      var saved := file;
      if saved.Some? && IsTokenValid(saved.value, now) {
        currentToken := saved;
        return Ok(saved.value.accessToken);
      }
      if response.Err? {
        return Err(response.error);
      }
      var newToken := Fetched(now, response.value.0, response.value.1);
      file := Some(newToken);
      currentToken := Some(newToken);
      return Ok(newToken.accessToken);
    }
  }

  /** The class's static `instance` slot. */
  class ManagerSlot {
    var instance: RedditTokenManager?

    constructor ()
      ensures instance == null
    {
      instance := null;
    }

    /** `getInstance()`: creates the manager on first use and returns the same one afterwards. */
    method GetInstance(file: Option<TokenData>) returns (m: RedditTokenManager)
      modifies this
      ensures old(instance) != null ==> m == old(instance)
      ensures old(instance) == null ==> fresh(m) && m.currentToken.None?
      ensures instance == m
    {
      if instance == null {
        instance := new RedditTokenManager(file);
      }
      m := instance;
    }
  }

  /** Two calls of `getInstance` return the same manager. */
  method SameInstance(slot: ManagerSlot, file: Option<TokenData>) returns (a: RedditTokenManager, b: RedditTokenManager)
    modifies slot
    ensures a == b
  {
    a := slot.GetInstance(file);
    b := slot.GetInstance(file);
  }
}
