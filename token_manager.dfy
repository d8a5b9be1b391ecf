// TokenManager: the decision between a cached access token, a refresh and a
// failure; the bookkeeping of a token response in the preference store; and
// the form arguments of the two OAuth 2.0 grants it sends (the
// authorization-code exchange of section 4.1.3 of RFC 6749 and the refresh
// of section 6 of RFC 6749). The clock is a parameter, and the network is
// reduced to the request arguments sent and the responses received.
module TokenManager {
  import opened Common
  import opened JavaNum

  const TOKEN_URL := "https://api.amazon.com/auth/O2/token"

  const ARG_GRANT_TYPE := "grant_type"
  const ARG_CODE := "code"
  const ARG_REDIRECT_URI := "redirect_uri"
  const ARG_CLIENT_ID := "client_id"
  const ARG_CODE_VERIFIER := "code_verifier"
  const ARG_REFRESH_TOKEN := "refresh_token"

  const PREF_ACCESS_TOKEN := "access_token"
  const PREF_REFRESH_TOKEN := "refresh_token"
  const PREF_TOKEN_EXPIRES := "token_expires"

  const NOT_LOGGED_IN := "User is not logged in and no refresh token found."

  // ---------------------------------------------------------------------
  // Preference store

  /** A stored preference value. */
  datatype PrefValue = StringValue(s: string) | LongValue(l: Long)

  /** The shared preferences: one value per key, a string or a long. */
  datatype Prefs = Prefs(entries: map<string, PrefValue>)

  predicate HasKey(p: Prefs, key: string)
  {
    key in p.entries
  }

  function GetString(p: Prefs, key: string, default: Option<string>): Option<string>
  {
    if key in p.entries && p.entries[key].StringValue? then Some(p.entries[key].s) else default
  }

  function GetLong(p: Prefs, key: string, default: Long): Long
  {
    if key in p.entries && p.entries[key].LongValue? then p.entries[key].l else default
  }

  /** putString: storing null removes the key, whatever it held. */
  function PutString(p: Prefs, key: string, value: Option<string>): (r: Prefs)
    ensures GetString(r, key, None) == value
    ensures HasKey(r, key) <==> value.Some?
    ensures r.entries - {key} == p.entries - {key}
  {
    match value
    case Some(v) => Prefs(p.entries[key := StringValue(v)])
    case None => Prefs(p.entries - {key})
  }

  /** putLong: the key holds the long, whatever it held before. */
  function PutLong(p: Prefs, key: string, value: Long): (r: Prefs)
    ensures GetLong(r, key, 0) == value && HasKey(r, key)
    ensures r.entries - {key} == p.entries - {key}
  {
    Prefs(p.entries[key := LongValue(value)])
  }

  // ---------------------------------------------------------------------
  // Token responses

  /** The JSON body of a token response. */
  datatype TokenResponse = TokenResponse(accessToken: Option<string>, refreshToken: Option<string>,
                                         tokenType: Option<string>, expiresIn: Long)

  /** System.currentTimeMillis() + expires_in * 1000 on Java longs. */
  function Expiry(now: Long, expiresIn: Long): Long
  {
    Wrap64(now + Wrap64(expiresIn * 1000))
  }

  /** For any realistic clock and lifetime the expiry is exact: the lifetime
      in seconds is turned into milliseconds and added to the clock. */
  lemma ExpiryIsExact(now: Long, expiresIn: Long)
    requires 0 <= now < 0x4000_0000_0000_0000 && 0 <= expiresIn < 0x100_0000_0000
    ensures Expiry(now, expiresIn) == now + expiresIn * 1000
  {
    Wrap64Identity(expiresIn * 1000);
    Wrap64Identity(now + expiresIn * 1000);
  }

  /** The preferences after saveTokens at time now. */
  function SavedPrefs(p: Prefs, response: TokenResponse, now: Long): (r: Prefs)
    ensures GetString(r, PREF_ACCESS_TOKEN, None) == response.accessToken
    ensures GetString(r, PREF_REFRESH_TOKEN, None) == response.refreshToken
    ensures GetLong(r, PREF_TOKEN_EXPIRES, 0) == Expiry(now, response.expiresIn)
  {
    var withAccess := PutString(p, PREF_ACCESS_TOKEN, response.accessToken);
    var withRefresh := PutString(withAccess, PREF_REFRESH_TOKEN, response.refreshToken);
    PutLong(withRefresh, PREF_TOKEN_EXPIRES, Expiry(now, response.expiresIn))
  }

  // ---------------------------------------------------------------------
  // getAccessToken

  /** The three ways getAccessToken can go. */
  datatype Decision = UseCached(token: Option<string>) | RefreshWith(refreshToken: string) | NotLoggedIn

  /** The branches of getAccessToken over the stored preferences at time now. */
  function Decide(p: Prefs, now: Long): (d: Decision)
    ensures d.UseCached? <==> HasKey(p, PREF_ACCESS_TOKEN) && GetLong(p, PREF_TOKEN_EXPIRES, 0) > now
    ensures d.RefreshWith? <==>
      HasKey(p, PREF_ACCESS_TOKEN) && GetLong(p, PREF_TOKEN_EXPIRES, 0) <= now && HasKey(p, PREF_REFRESH_TOKEN)
    ensures !HasKey(p, PREF_ACCESS_TOKEN) ==> d == NotLoggedIn
  {
    if HasKey(p, PREF_ACCESS_TOKEN) then
      if GetLong(p, PREF_TOKEN_EXPIRES, 0) > now then UseCached(GetString(p, PREF_ACCESS_TOKEN, None))
      else if HasKey(p, PREF_REFRESH_TOKEN) then
        RefreshWith(GetString(p, PREF_REFRESH_TOKEN, Some("")).value)
      else NotLoggedIn
    else NotLoggedIn
  }

  /** Why a token callback fails. */
  datatype TokenFailure = IllegalState(message: string) | AuthError(message: string) | VolleyError(message: string)

  /** A call of TokenCallback. */
  datatype TokenCallback = OnSuccess(token: Option<string>) | OnFailure(failure: TokenFailure)

  /** What one getAccessToken call does at once: the callbacks it fires and
      the token requests it queues (their form arguments). */
  datatype Outcome = Outcome(callbacks: seq<TokenCallback>, requests: seq<map<string, string>>)

  /** The arguments of the refresh grant; a client id that cannot be read is
      left out of the map. */
  function RefreshArguments(refreshToken: string, clientId: Result<string, string>): (r: map<string, string>)
    ensures r.Keys == {ARG_GRANT_TYPE, ARG_REFRESH_TOKEN} + (if clientId.Ok? then {ARG_CLIENT_ID} else {})
    ensures r[ARG_GRANT_TYPE] == "refresh_token" && r[ARG_REFRESH_TOKEN] == refreshToken
    ensures clientId.Ok? ==> r[ARG_CLIENT_ID] == clientId.value
  {
    var base := map[ARG_GRANT_TYPE := "refresh_token", ARG_REFRESH_TOKEN := refreshToken];
    if clientId.Ok? then base[ARG_CLIENT_ID := clientId.value] else base
  }

  /** The arguments of the authorization-code exchange. The redirect URI
      and the client id are read inside one try block: when the first read
      fails, neither is put; when only the second fails, the first is kept. */
  function CodeArguments(authCode: string, redirectUri: Result<string, string>,
                         clientId: Result<string, string>, codeVerifier: string): (r: map<string, string>)
    ensures r.Keys == {ARG_GRANT_TYPE, ARG_CODE, ARG_CODE_VERIFIER}
                      + (if redirectUri.Ok? then {ARG_REDIRECT_URI} else {})
                      + (if redirectUri.Ok? && clientId.Ok? then {ARG_CLIENT_ID} else {})
    ensures r[ARG_GRANT_TYPE] == "authorization_code" && r[ARG_CODE] == authCode
    ensures r[ARG_CODE_VERIFIER] == codeVerifier
    ensures redirectUri.Ok? ==> r[ARG_REDIRECT_URI] == redirectUri.value
    ensures redirectUri.Ok? && clientId.Ok? ==> r[ARG_CLIENT_ID] == clientId.value
  {
    var base := map[ARG_GRANT_TYPE := "authorization_code", ARG_CODE := authCode];
    var withIds :=
      if redirectUri.Err? then base
      else if clientId.Err? then base[ARG_REDIRECT_URI := redirectUri.value]
      else base[ARG_REDIRECT_URI := redirectUri.value][ARG_CLIENT_ID := clientId.value];
    withIds[ARG_CODE_VERIFIER := codeVerifier]
  }

  /** getAccessToken with the store p, the clock at now, and the client id
      the authorization manager reports. */
  function AccessTokenOutcome(p: Prefs, now: Long, clientId: Result<string, string>): (o: Outcome)
    ensures |o.requests| <= 1 && 1 <= |o.callbacks| + |o.requests| <= 2
  {
    match Decide(p, now)
    case UseCached(token) => Outcome([OnSuccess(token)], [])
    case RefreshWith(refreshToken) =>
      Outcome(if clientId.Err? then [OnFailure(AuthError(clientId.error))] else [],
              [RefreshArguments(refreshToken, clientId)])
    case NotLoggedIn => Outcome([OnFailure(IllegalState(NOT_LOGGED_IN))], [])
  }

  /** A token saved at time saved is handed out as it is until it expires,
      with no request to the server. */
  lemma SavedTokenIsUsed(p: Prefs, response: TokenResponse, saved: Long, now: Long, clientId: Result<string, string>)
    requires response.accessToken.Some?
    requires now < Expiry(saved, response.expiresIn)
    ensures AccessTokenOutcome(SavedPrefs(p, response, saved), now, clientId) == Outcome([OnSuccess(response.accessToken)], [])
  {
    var q := SavedPrefs(p, response, saved);
    assert HasKey(q, PREF_ACCESS_TOKEN);
  }

  /** Once it has expired, the saved refresh token is sent in exactly one
      refresh request. */
  lemma ExpiredTokenIsRefreshed(p: Prefs, response: TokenResponse, saved: Long, now: Long, clientId: Result<string, string>)
    requires response.accessToken.Some? && response.refreshToken.Some?
    requires Expiry(saved, response.expiresIn) <= now
    ensures var o := AccessTokenOutcome(SavedPrefs(p, response, saved), now, clientId);
      o.requests == [RefreshArguments(response.refreshToken.value, clientId)] &&
      (clientId.Ok? ==> o.callbacks == [])
  {
    var q := SavedPrefs(p, response, saved);
    assert HasKey(q, PREF_ACCESS_TOKEN) && HasKey(q, PREF_REFRESH_TOKEN);
  }

  /** Without a stored access token the call fails, whatever refresh token
      is stored. */
  lemma NoAccessTokenFails(p: Prefs, now: Long, clientId: Result<string, string>)
    requires !HasKey(p, PREF_ACCESS_TOKEN)
    ensures AccessTokenOutcome(p, now, clientId) == Outcome([OnFailure(IllegalState(NOT_LOGGED_IN))], [])
  {
  }

  /** An expired token with no refresh token fails without a request. */
  lemma ExpiredWithoutRefreshFails(p: Prefs, now: Long, clientId: Result<string, string>)
    requires HasKey(p, PREF_ACCESS_TOKEN) && GetLong(p, PREF_TOKEN_EXPIRES, 0) <= now
    requires !HasKey(p, PREF_REFRESH_TOKEN)
    ensures AccessTokenOutcome(p, now, clientId) == Outcome([OnFailure(IllegalState(NOT_LOGGED_IN))], [])
  {
  }

  /** A client id that cannot be read fails the callback, yet the refresh
      request is queued all the same. */
  lemma ClientIdFailureStillQueues(p: Prefs, now: Long, error: string)
    requires Decide(p, now).RefreshWith?
    ensures var o := AccessTokenOutcome(p, now, Err(error));
      o.callbacks == [OnFailure(AuthError(error))] && |o.requests| == 1 &&
      ARG_CLIENT_ID !in o.requests[0]
  {
  }

  /** A response without an access token removes the stored one, so the
      user counts as logged out afterwards. */
  lemma NullAccessTokenLogsOut(p: Prefs, response: TokenResponse, saved: Long, now: Long)
    requires response.accessToken.None?
    ensures Decide(SavedPrefs(p, response, saved), now) == NotLoggedIn
  {
    var q := SavedPrefs(p, response, saved);
    var withAccess := PutString(p, PREF_ACCESS_TOKEN, None);
    var withRefresh := PutString(withAccess, PREF_REFRESH_TOKEN, response.refreshToken);
    assert PREF_ACCESS_TOKEN != PREF_REFRESH_TOKEN && PREF_ACCESS_TOKEN != PREF_TOKEN_EXPIRES;
    assert !HasKey(withAccess, PREF_ACCESS_TOKEN);
    assert PREF_ACCESS_TOKEN !in withRefresh.entries - {PREF_REFRESH_TOKEN};
    assert PREF_ACCESS_TOKEN !in q.entries - {PREF_TOKEN_EXPIRES};
  }

  /** The static token fields and the preference store of TokenManager. */
  class TokenManager {
    var accessToken: Option<string>
    var refreshToken: Option<string>
    var prefs: Prefs

    constructor (prefs: Prefs)
      ensures this.prefs == prefs && accessToken == None && refreshToken == None
    {
      this.prefs := prefs;
      accessToken := None;
      refreshToken := None;
    }

    /** saveTokens at time now. */
    method SaveTokens(response: TokenResponse, now: Long)
      modifies this
      ensures accessToken == response.accessToken && refreshToken == response.refreshToken
      ensures prefs == SavedPrefs(old(prefs), response, now)
    {
      refreshToken := response.refreshToken;
      accessToken := response.accessToken;
      var edit := PutString(prefs, PREF_ACCESS_TOKEN, accessToken);
      edit := PutString(edit, PREF_REFRESH_TOKEN, refreshToken);
      edit := PutLong(edit, PREF_TOKEN_EXPIRES, Expiry(now, response.expiresIn));
      prefs := edit;
    }

    /** The refresh request's response listener: the tokens are saved first,
        then the new access token goes to the callback. */
    method RefreshSucceeded(response: TokenResponse, now: Long) returns (callback: TokenCallback)
      modifies this
      ensures prefs == SavedPrefs(old(prefs), response, now)
      ensures callback == OnSuccess(response.accessToken)
      ensures accessToken == response.accessToken && refreshToken == response.refreshToken
    {
      SaveTokens(response, now);
      callback := OnSuccess(response.accessToken);
    }

    /** The code exchange's response listener: the tokens are saved, then
        the whole response goes to the callback when there is one. */
    method ExchangeSucceeded(response: TokenResponse, now: Long, hasCallback: bool) returns (delivered: Option<TokenResponse>)
      modifies this
      ensures prefs == SavedPrefs(old(prefs), response, now)
      ensures delivered == if hasCallback then Some(response) else None
      ensures accessToken == response.accessToken && refreshToken == response.refreshToken
    {
      SaveTokens(response, now);
      delivered := if hasCallback then Some(response) else None;
    }

    /** The refresh request's error listener: the Volley error goes to the
        callback as it is, and nothing is saved. */
    method RefreshFailed(error: string) returns (callback: TokenCallback)
      ensures callback == OnFailure(VolleyError(error))
      ensures prefs == old(prefs) && accessToken == old(accessToken) && refreshToken == old(refreshToken)
    {
      callback := OnFailure(VolleyError(error));
    }

    /** The code exchange's error listener: the Volley error reaches the
        callback when there is one, and nothing is saved. */
    method ExchangeFailed(error: string, hasCallback: bool) returns (reported: Option<TokenFailure>)
      ensures reported == if hasCallback then Some(VolleyError(error)) else None
      ensures prefs == old(prefs) && accessToken == old(accessToken) && refreshToken == old(refreshToken)
    {
      reported := if hasCallback then Some(VolleyError(error)) else None;
    }
  }

  /** After a refresh has been saved, the next getAccessToken before the new
      expiry hands out the new token without another request. */
  lemma RefreshThenCached(p: Prefs, response: TokenResponse, saved: Long, now: Long, clientId: Result<string, string>)
    requires response.accessToken.Some?
    requires 0 <= saved <= now < 0x4000_0000_0000_0000 && 0 <= response.expiresIn < 0x100_0000_0000
    requires now < saved + response.expiresIn * 1000
    ensures AccessTokenOutcome(SavedPrefs(p, response, saved), now, clientId).requests == []
  {
    ExpiryIsExact(saved, response.expiresIn);
    SavedTokenIsUsed(p, response, saved, now, clientId);
  }
}
