// AuthorizationManager: Login with Amazon using a PKCE code verifier and
// challenge (section 4.1 and section 4.2 of RFC 7636), the base64url form
// of the challenge (section 5 of RFC 4648, with the padding removed), the
// mapping of a token lookup onto a logged-in check, and the forwarding of
// the authorization result to the caller's callback. SHA-256 and the
// platform's standard base64 encoder are passed in as functions.
module AuthorizationManager {
  import opened Common
  import opened JavaText
  import opened JavaNum
  import opened TokenManager
  import LegacyMultipart

  const CODE_VERIFIER := "code_verifier"
  const CHALLENGE_METHOD := "S256"

  // ---------------------------------------------------------------------
  // Code verifier

  /** chars[i] of "abcdefghijklmnopqrstuvwxyzABCDEFGHIJKLMNOPQRSTUVWXYZ1234567890". */
  function VerifierChar(i: nat): (c: char)
    requires i < 62
    ensures 'a' <= c <= 'z' || 'A' <= c <= 'Z' || '0' <= c <= '9'
  {
    if i < 26 then ('a' as int + i) as char
    else if i < 52 then ('A' as int + (i - 26)) as char
    else if i < 61 then ('1' as int + (i - 52)) as char
    else '0'
  }

  predicate IsAlphanumeric(c: char)
  {
    'a' <= c <= 'z' || 'A' <= c <= 'Z' || '0' <= c <= '9'
  }

  /** The unreserved characters of URIs that a code verifier may use. */
  predicate IsUnreserved(c: char)
  {
    IsAlphanumeric(c) || c == '-' || c == '.' || c == '_' || c == '~'
  }

  /** A code verifier as section 4.1 of RFC 7636 defines it. */
  predicate IsCodeVerifier(v: string)
  {
    43 <= |v| <= 128 && forall k :: 0 <= k < |v| ==> IsUnreserved(v[k])
  }

  /** createCodeVerifier: 128 characters, each drawn at random from the 62
      letters and digits. */
  method CreateCodeVerifier() returns (v: string)
    ensures |v| == 128 && forall k :: 0 <= k < |v| ==> IsAlphanumeric(v[k])
    ensures IsCodeVerifier(v)
  {
    v := "";
    var i := 0;
    while i < 128
      invariant 0 <= i <= 128 && |v| == i
      invariant forall k :: 0 <= k < |v| ==> IsAlphanumeric(v[k])
    {
      var pick :| 0 <= pick < 62;
      v := v + [VerifierChar(pick)];
      i := i + 1;
    }
  }

  // ---------------------------------------------------------------------
  // base64url

  datatype EncodeError = ArrayIndexOutOfBounds

  /** The alphabet change from standard base64 to base64url. */
  function UrlSafe(s: string): (r: string)
    ensures |r| == |s| && '+' !in r && '/' !in r
    ensures '=' !in s ==> '=' !in r
  {
    Replace(Replace(s, '+', '-'), '/', '_')
  }

  /** The way back from base64url to the standard alphabet. */
  function FromUrlSafe(s: string): string
  {
    Replace(Replace(s, '-', '+'), '_', '/')
  }

  /** On standard base64 text the alphabet change is undone exactly. */
  lemma UrlSafeRoundTrip(s: string)
    requires '-' !in s && '_' !in s
    ensures FromUrlSafe(UrlSafe(s)) == s
  {
    var r := FromUrlSafe(UrlSafe(s));
    assert forall k :: 0 <= k < |s| ==> r[k] == s[k];
  }

  /** base64UrlEncode applied to the standard encoder's output: the text
      before the first '=' (split("=")[0]) in the base64url alphabet. */
  function Base64UrlEncode(encoded: string): (r: Result<string, EncodeError>)
    ensures r.Ok? ==> '=' !in r.value && '+' !in r.value && '/' !in r.value
  {
    var parts := Split(encoded, '=');
    PiecesJoin(encoded, '=');
    if |parts| == 0 then Err(ArrayIndexOutOfBounds) else Ok(UrlSafe(parts[0]))
  }

  /** Padded text keeps what precedes the padding. */
  lemma Base64UrlOfPadded(body: string, rest: string)
    requires '=' !in body && body != []
    ensures Base64UrlEncode(body + "=" + rest) == Ok(UrlSafe(body))
  {
    var s := body + "=" + rest;
    assert s[..|body|] == body;
    assert s[|body|] == '=';
    var i := IndexOfChar(s, '=');
    assert i == Some(|body|);
    var ps := Pieces(s, '=');
    assert ps[0] == body;
  }

  /** Unpadded text is only re-lettered. */
  lemma Base64UrlOfUnpadded(body: string)
    requires '=' !in body
    ensures Base64UrlEncode(body) == Ok(UrlSafe(body))
  {
  }

  lemma {:induction false} PaddingPiecesEmpty(s: string)
    requires forall k :: 0 <= k < |s| ==> s[k] == '='
    ensures forall k :: 0 <= k < |Pieces(s, '=')| ==> Pieces(s, '=')[k] == ""
    decreases |s|
  {
    if s != [] {
      assert IndexOfChar(s, '=') == Some(0);
      PaddingPiecesEmpty(s[1..]);
    }
  }

  /** Text made of padding alone leaves split nothing to index. */
  lemma OnlyPaddingFails(s: string)
    requires s != [] && forall k :: 0 <= k < |s| ==> s[k] == '='
    ensures Base64UrlEncode(s) == Err(ArrayIndexOutOfBounds)
  {
    assert s[0] == '=';
    PaddingPiecesEmpty(s);
  }

  /** The S256 challenge of a verifier: base64url of the SHA-256 digest of
      the verifier's bytes. */
  function CodeChallenge(verifier: string, sha256: Bytes -> Bytes, base64: Bytes -> string): Result<string, EncodeError>
  {
    Base64UrlEncode(base64(sha256(LegacyMultipart.Utf8(verifier))))
  }

  // ---------------------------------------------------------------------
  // Callbacks

  /** A call of the caller's AsyncCallback<Boolean, Throwable>. */
  datatype LoginCheck = Success(loggedIn: bool) | Failure(failure: TokenFailure)

  /** checkLoggedIn: a token means logged in; a failure reports "not logged
      in" and then the failure itself. */
  function CheckLoggedInEvents(token: TokenCallback): (r: seq<LoginCheck>)
    ensures token.OnSuccess? <==> r == [Success(true)]
    ensures token.OnFailure? <==> |r| == 2 && r[0] == Success(false) && r[1] == Failure(token.failure)
  {
    match token
    case OnSuccess(_) => [Success(true)]
    case OnFailure(e) => [Success(false), Failure(e)]
  }

  /** A saved token that has not expired makes the check succeed at once. */
  lemma LoggedInWithSavedToken(p: Prefs, response: TokenResponse, saved: Long, now: Long, clientId: Result<string, string>)
    requires response.accessToken.Some? && now < Expiry(saved, response.expiresIn)
    ensures var o := AccessTokenOutcome(SavedPrefs(p, response, saved), now, clientId);
      o.requests == [] && CheckLoggedInEvents(o.callbacks[0]) == [Success(true)]
  {
    SavedTokenIsUsed(p, response, saved, now, clientId);
  }

  /** With nothing stored the check reports "not logged in" and then the
      IllegalStateException. */
  lemma NotLoggedInWithoutToken(p: Prefs, now: Long, clientId: Result<string, string>)
    requires !HasKey(p, PREF_ACCESS_TOKEN)
    ensures var o := AccessTokenOutcome(p, now, clientId);
      CheckLoggedInEvents(o.callbacks[0]) == [Success(false), Failure(IllegalState(NOT_LOGGED_IN))]
  {
    NoAccessTokenFails(p, now, clientId);
  }

  /** A call of the AuthorizationCallback given to authorizeUser. */
  datatype AuthEvent = AuthSuccess | AuthError(message: string) | AuthCancel

  /** The options bundle authorizeUser hands to the Amazon authorization
      manager. */
  datatype AuthorizeOptions = AuthorizeOptions(scopeData: string, getAuthCode: bool,
                                               codeChallenge: string, codeChallengeMethod: string)

  /** The scope data naming the product and the device serial number. */
  function ScopeData(productId: string, dsn: string): string
  {
    "{\"alexa:all\":{\"productID\":\"" + productId +
    "\", \"productInstanceAttributes\":{\"deviceSerialNumber\":\"" + dsn + "\"}}}"
  }

  class AuthorizationManager {
    const productId: string
    /** The shared preferences, where the code verifier is kept. */
    var prefs: Prefs
    /** mCallback: an identifier of the caller's callback, or null. */
    var callback: Option<nat>

    constructor (productId: string, prefs: Prefs)
      ensures this.productId == productId && this.prefs == prefs && callback == None
    {
      this.productId := productId;
      this.prefs := prefs;
      callback := None;
    }

    /** getCodeVerifier: the stored verifier when there is one; otherwise a
        new one, which is stored. */
    method GetCodeVerifier() returns (v: string)
      modifies this
      ensures HasKey(old(prefs), CODE_VERIFIER) ==>
        prefs == old(prefs) && v == GetString(prefs, CODE_VERIFIER, Some("")).value
      ensures !HasKey(old(prefs), CODE_VERIFIER) ==>
        prefs == PutString(old(prefs), CODE_VERIFIER, Some(v)) && IsCodeVerifier(v)
      ensures HasKey(prefs, CODE_VERIFIER) && GetString(prefs, CODE_VERIFIER, Some("")) == Some(v)
      ensures callback == old(callback)
    {
      if HasKey(prefs, CODE_VERIFIER) {
        v := GetString(prefs, CODE_VERIFIER, Some("")).value;
        return;
      }
      v := CreateCodeVerifier();
      prefs := PutString(prefs, CODE_VERIFIER, Some(v));
    }

    /** getCodeChallenge: the challenge of the (possibly new) verifier. */
    method GetCodeChallenge(sha256: Bytes -> Bytes, base64: Bytes -> string)
      returns (verifier: string, challenge: Result<string, EncodeError>)
      modifies this
      ensures challenge == CodeChallenge(verifier, sha256, base64)
      ensures HasKey(prefs, CODE_VERIFIER) && GetString(prefs, CODE_VERIFIER, Some("")) == Some(verifier)
      ensures HasKey(old(prefs), CODE_VERIFIER) ==> prefs == old(prefs)
      ensures callback == old(callback)
    {
      verifier := GetCodeVerifier();
      challenge := Base64UrlEncode(base64(sha256(LegacyMultipart.Utf8(verifier))));
    }

    /** authorizeUser: the callback is kept, and the authorization request
        asks for a code against the S256 challenge. */
    method AuthorizeUser(cb: Option<nat>, dsn: string, sha256: Bytes -> Bytes, base64: Bytes -> string)
      returns (verifier: string, options: Result<AuthorizeOptions, EncodeError>)
      modifies this
      ensures callback == cb
      ensures HasKey(prefs, CODE_VERIFIER) && GetString(prefs, CODE_VERIFIER, Some("")) == Some(verifier)
      ensures HasKey(old(prefs), CODE_VERIFIER) ==> prefs == old(prefs)
      ensures var c := CodeChallenge(verifier, sha256, base64);
        options == if c.Err? then Err(c.error)
                   else Ok(AuthorizeOptions(ScopeData(productId, dsn), true, c.value, CHALLENGE_METHOD))
    {
      callback := cb;
      var challenge;
      verifier, challenge := GetCodeChallenge(sha256, base64);
      if challenge.Err? {
        options := Err(challenge.error);
      } else {
        options := Ok(AuthorizeOptions(ScopeData(productId, dsn), true, challenge.value, CHALLENGE_METHOD));
      }
    }

    /** The authorization listener's success: the code is exchanged, with the
        stored verifier, for tokens. */
    method AuthorizeSucceeded(authCode: string, redirectUri: Result<string, string>, clientId: Result<string, string>)
      returns (verifier: string, arguments: map<string, string>)
      modifies this
      ensures arguments == CodeArguments(authCode, redirectUri, clientId, verifier)
      ensures GetString(prefs, CODE_VERIFIER, Some("")) == Some(verifier)
      ensures HasKey(old(prefs), CODE_VERIFIER) ==> prefs == old(prefs) && Some(verifier) == GetString(old(prefs), CODE_VERIFIER, Some(""))
      ensures callback == old(callback)
    {
      verifier := GetCodeVerifier();
      arguments := CodeArguments(authCode, redirectUri, clientId, verifier);
    }

    /** Every outcome of the authorization (token success, token failure,
        authorization error, cancel) reaches the callback only when one was
        given. */
    method Forward(event: AuthEvent) returns (delivered: Option<(nat, AuthEvent)>)
      ensures delivered == if callback.Some? then Some((callback.value, event)) else None
    {
      if callback.Some? {
        delivered := Some((callback.value, event));
      } else {
        delivered := None;
      }
    }
  }

  /** The whole login: the code sent in the exchange goes with the very
      verifier whose digest was sent as the challenge. */
  method Login(m: AuthorizationManager, cb: Option<nat>, dsn: string, sha256: Bytes -> Bytes, base64: Bytes -> string,
               authCode: string, redirectUri: Result<string, string>, clientId: Result<string, string>)
    returns (options: Result<AuthorizeOptions, EncodeError>, arguments: map<string, string>)
    modifies m
    ensures ARG_CODE in arguments && ARG_CODE_VERIFIER in arguments && arguments[ARG_CODE] == authCode
    ensures options.Ok? ==>
      CodeChallenge(arguments[ARG_CODE_VERIFIER], sha256, base64) == Ok(options.value.codeChallenge) &&
      options.value.codeChallengeMethod == CHALLENGE_METHOD
    ensures m.callback == cb
  {
    var v1, v2;
    v1, options := m.AuthorizeUser(cb, dsn, sha256, base64);
    v2, arguments := m.AuthorizeSucceeded(authCode, redirectUri, clientId);
    assert v1 == v2;
  }
}
